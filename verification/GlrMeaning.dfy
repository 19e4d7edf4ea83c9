/** What the values on the stacks of the GLR parser mean: every one is a value that its
    symbol can have, derived from its stretch of the input. */
module GlrMeaning {
  import opened LrTables
  import opened GlrGraph
  import opened GlrOps
  import opened GlrInvariants
  import opened GlrForest
  import opened GlrLanguage
  import opened GlrCompress
  import opened GlrSingle
  import GlrOptions
  import opened GlrValues

  /** The values of the tokens of the input are such as `fits` wants them. */
  ghost predicate TokensFit(T: Tables, input: nat -> int, lexval: nat -> int, fits: (Key, int) -> bool)
    requires T.Ranges()
  {
    forall n: nat {:trigger lexval(n)} :: fits(Key(TokenAt(T, input, n), n, n + 1), lexval(n))
  }

  ghost predicate Sensible(E: Setting, input: nat -> int, lexval: nat -> int, fits: (Key, int) -> bool)
    requires E.T.Ranges()
  {
    Compatible(E, fits) && TokensFit(E.T, input, lexval, fits)
  }

  /** Whatever `fits` goes with the user's code and with the tokens: all values fit. */
  ghost predicate SoundValues(E: Setting, input: nat -> int, lexval: nat -> int, items: seq<Item>)
    requires E.T.Ranges()
  {
    forall fits: (Key, int) -> bool {:trigger GlrOptions.AllFit(items, Keys(E.T, items), fits)} |
      Sensible(E, input, lexval, fits) :: GlrOptions.AllFit(items, Keys(E.T, items), fits)
  }

  /** In particular this value. */
  ghost predicate SoundValue(E: Setting, input: nat -> int, lexval: nat -> int, k: Key, val: int)
    requires E.T.Ranges()
  {
    forall fits: (Key, int) -> bool {:trigger fits(k, val)} | Sensible(E, input, lexval, fits) :: fits(k, val)
  }

  lemma TokenIsSound(E: Setting, input: nat -> int, lexval: nat -> int, n: nat)
    requires E.T.Ranges()
    ensures SoundValue(E, input, lexval, Key(TokenAt(E.T, input, n), n, n + 1), lexval(n))
  {
    hide Compatible, TokenAt;
  }

  /** No state has got a value: the values are as sound as they were. */
  lemma SoundStays(E: Setting, input: nat -> int, lexval: nat -> int, rk: Ranking, items: seq<Item>, items': seq<Item>)
    requires E.T.Ranges() && SoundValues(E, input, lexval, items) && Skeleton(E.T, rk, items)
    requires Extends(items, items') && NoNewValues(items, items')
    ensures SoundValues(E, input, lexval, items')
  {
    hide Sensible, Skeleton, KeyOf, Extends;
    forall fits: (Key, int) -> bool {:trigger GlrOptions.AllFit(items', Keys(E.T, items'), fits)} |
      Sensible(E, input, lexval, fits)
      ensures GlrOptions.AllFit(items', Keys(E.T, items'), fits)
    {
      assert GlrOptions.AllFit(items, Keys(E.T, items), fits);
      forall i {:trigger items'[i]} | 0 <= i < |items'| && items'[i].State? && items'[i].sem.Resolved?
        ensures fits(KeyOf(E.T, items', i), items'[i].sem.val)
      {
        KeyFrame(E.T, rk, items, items', i);
        assert fits(Keys(E.T, items)(i), items[i].sem.val);
      }
    }
  }

  /** A state with a sound value is pushed. */
  lemma SoundPush(E: Setting, input: nat -> int, lexval: nat -> int, rk: Ranking, g: Graph, k: nat, lr: nat, posn: nat,
                  val: int)
    requires E.T.Ranges() && SoundValues(E, input, lexval, g.items) && Skeleton(E.T, rk, g.items)
    requires k < |g.tops| && 0 <= g.tops[k] < |g.items| && g.items[g.tops[k]].State? && lr < E.T.States()
    requires SoundValue(E, input, lexval, Key(E.T.stos[lr], g.items[g.tops[k]].posn, posn), val)
    ensures SoundValues(E, input, lexval, AddState(g, k, lr, posn, Resolved(val)).items)
  {
    hide Sensible, Skeleton, KeyOf, Extends;
    var items, items' := g.items, AddState(g, k, lr, posn, Resolved(val)).items;
    AddStateExtends(g, k, lr, posn, Resolved(val));
    PushedKeyIs(E.T, g, k, lr, posn, val);
    forall fits: (Key, int) -> bool {:trigger GlrOptions.AllFit(items', Keys(E.T, items'), fits)} |
      Sensible(E, input, lexval, fits)
      ensures GlrOptions.AllFit(items', Keys(E.T, items'), fits)
    {
      assert GlrOptions.AllFit(items, Keys(E.T, items), fits);
      forall i {:trigger items'[i]} | 0 <= i < |items'| && items'[i].State? && items'[i].sem.Resolved?
        ensures fits(KeyOf(E.T, items', i), items'[i].sem.val)
      {
        if i < |items| {
          assert items'[i] == items[i];
          KeyFrame(E.T, rk, items, items', i);
          assert fits(Keys(E.T, items)(i), items[i].sem.val);
        }
      }
    }
  }

  lemma PushedKeyIs(T: Tables, g: Graph, k: nat, lr: nat, posn: nat, val: int)
    requires T.Ranges() && k < |g.tops| && 0 <= g.tops[k] < |g.items| && g.items[g.tops[k]].State? && lr < T.States()
    ensures KeyOf(T, AddState(g, k, lr, posn, Resolved(val)).items, |g.items|)
         == Key(T.stos[lr], g.items[g.tops[k]].posn, posn)
  {
  }

  /** Some of the items, from the bottom up. */
  lemma SoundPrefix(E: Setting, input: nat -> int, lexval: nat -> int, rk: Ranking, items: seq<Item>, n: nat)
    requires E.T.Ranges() && SoundValues(E, input, lexval, items) && n <= |items| && Skeleton(E.T, rk, items[..n])
    ensures SoundValues(E, input, lexval, items[..n])
  {
    hide Sensible, Skeleton, KeyOf;
    var items' := items[..n];
    forall fits: (Key, int) -> bool {:trigger GlrOptions.AllFit(items', Keys(E.T, items'), fits)} |
      Sensible(E, input, lexval, fits)
      ensures GlrOptions.AllFit(items', Keys(E.T, items'), fits)
    {
      assert GlrOptions.AllFit(items, Keys(E.T, items), fits);
      forall i {:trigger items'[i]} | 0 <= i < |items'| && items'[i].State? && items'[i].sem.Resolved?
        ensures fits(KeyOf(E.T, items', i), items'[i].sem.val)
      {
        assert items'[i] == items[i];
        KeyFrame(E.T, rk, items', items, i);
        assert fits(Keys(E.T, items)(i), items[i].sem.val);
      }
    }
  }

  /** The values are resolved. */
  lemma SoundResolved(E: Setting, input: nat -> int, lexval: nat -> int, region: iset<Key>, items: seq<Item>,
                      items': seq<Item>)
    requires E.T.Ranges() && SoundValues(E, input, lexval, items) && GlrOptions.SameBones(items, items')
    requires Progress(E, items, region, items, items')
    ensures SoundValues(E, input, lexval, items')
  {
    hide KeyOf, GlrOptions.AllFit, Compatible, TokensFit;
    forall fits: (Key, int) -> bool {:trigger GlrOptions.AllFit(items', Keys(E.T, items'), fits)} |
      Sensible(E, input, lexval, fits)
      ensures GlrOptions.AllFit(items', Keys(E.T, items'), fits)
    {
      assert GlrOptions.AllFit(items, Keys(E.T, items), fits);
      assert GlrOptions.AllFit(items', Keys(E.T, items), fits);
      SameFit(E.T, items, items', fits);
    }
  }

  lemma SameFit(T: Tables, items: seq<Item>, items': seq<Item>, fits: (Key, int) -> bool)
    requires GlrOptions.SameBones(items, items') && GlrOptions.AllFit(items', Keys(T, items), fits)
    ensures GlrOptions.AllFit(items', Keys(T, items'), fits)
  {
    hide KeyOf, GlrOptions.SameBones;
    forall i {:trigger items'[i]} | 0 <= i < |items'| && items'[i].State? && items'[i].sem.Resolved?
      ensures fits(KeyOf(T, items', i), items'[i].sem.val)
    {
      BonesKey(T, items, items', i);
      assert fits(Keys(T, items)(i), items'[i].sem.val);
    }
  }

  /** The stack is compressed. */
  lemma SoundCompressed(E: Setting, input: nat -> int, lexval: nat -> int, g: Graph, c: seq<int>)
    requires E.T.Ranges() && SoundValues(E, input, lexval, g.items) && Compressible(g, c) && Forest(E.T, g.items)
    ensures SoundValues(E, input, lexval, Compressed(g, c).items)
  {
    hide KeyOf, GlrOptions.AllFit, Sensible, Compressed, Forest, Links, Chain;
    var items' := Compressed(g, c).items;
    forall fits: (Key, int) -> bool {:trigger GlrOptions.AllFit(items', Keys(E.T, items'), fits)} |
      Sensible(E, input, lexval, fits)
      ensures GlrOptions.AllFit(items', Keys(E.T, items'), fits)
    {
      assert GlrOptions.AllFit(g.items, Keys(E.T, g.items), fits);
      CompressedFits(E.T, g, c, fits);
    }
  }

  /** An action executed at once makes a sound value of sound values. */
  lemma SoundReduction(E: Setting, input: nat -> int, lexval: nat -> int, items: seq<Item>, top: int, r: nat,
                       vals: seq<int>,
                       count: nat)
    requires E.T.Ranges() && Good(E, RankOf(E.T)) && EdgesOk(E.T) && Automaton(E.T, items)
    requires Skeleton(E.T, RankOf(E.T), items)
    requires Step(items, top) && Reducible(E.T, items[top].lr, r) && 1 < r < E.T.Rules()
    requires SoundValues(E, input, lexval, items) && HasValues(items, top, E.T.r2[r], vals)
    requires E.act(count, r, vals).tag == YyOk
    ensures SoundValue(E, input, lexval,
                       Key(E.T.r1[r], PosnAt(items, Walk(items, top, E.T.r2[r])), items[top].posn),
                         E.act(count, r, vals).val)
  {
    hide KeyOf, GlrOptions.AllFit, Skeleton, Rooted, EdgesOk, Automaton, Reducible, HasValues, NonCyclic, Walk,
      Compatible, Made, TokensFit, GlrOptions.SameBones;
    var rk, bones := RankOf(E.T), WithOption(items, top, r);
    ReductionDerives(E.T, items, top, r);
    assert bones[|items|] == Opt(r, top, 0, NULL);
    ValuesWithOption(items, top, r, E.T.r2[r], vals);
    BonesSelf(bones);
    forall fits: (Key, int) -> bool {:trigger fits(KeyOf(E.T, bones, |items|), E.act(count, r, vals).val)} |
      Sensible(E, input, lexval, fits)
      ensures fits(KeyOf(E.T, bones, |items|), E.act(count, r, vals).val)
    {
      assert GlrOptions.AllFit(items, Keys(E.T, items), fits);
      FitWithOption(E.T, rk, items, top, r, fits);
      ActionMakes(E, rk, bones, bones, |items|, vals, count, fits);
      MadeFits(E, fits, KeyOf(E.T, bones, |items|), r, E.act(count, r, vals).val);
    }
  }

  lemma BonesSelf(items: seq<Item>)
    ensures GlrOptions.SameBones(items, items)
  {
  }

  lemma ValuesWithOption(items: seq<Item>, top: int, r: nat, n: nat, vals: seq<int>)
    requires HasValues(items, top, n, vals) && top < |items|
    ensures HasValues(WithOption(items, top, r), top, n, vals)
  {
    var w := WithOption(items, top, r);
    forall j {:trigger Walk(w, top, j)} | 0 <= j < n
      ensures Step(w, Walk(w, top, j)) && w[Walk(w, top, j)].sem == Resolved(vals[n - 1 - j])
    {
      WalkFrame(items, w, top, j);
      var c := Walk(items, top, j);
      assert Step(items, c) && w[c] == items[c];
    }
  }

  lemma FitWithOption(T: Tables, rk: Ranking, items: seq<Item>, top: int, r: nat, fits: (Key, int) -> bool)
    requires T.Ranges() && Skeleton(T, rk, items) && GlrOptions.AllFit(items, Keys(T, items), fits)
    ensures GlrOptions.AllFit(WithOption(items, top, r), Keys(T, WithOption(items, top, r)), fits)
  {
    hide KeyOf, Skeleton;
    var w := WithOption(items, top, r);
    forall i {:trigger w[i]} | 0 <= i < |w| && w[i].State? && w[i].sem.Resolved?
      ensures fits(KeyOf(T, w, i), w[i].sem.val)
    {
      assert w[i] == items[i];
      KeyFrame(T, rk, items, w, i);
      assert fits(Keys(T, items)(i), items[i].sem.val);
    }
  }

  // ---------------------------------------------------------------- what the parser does

  lemma StillSound(E: Setting, input: nat -> int, lexval: nat -> int, g: Graph, h: Graph, owner: map<int, int>)
    requires E.T.Ranges() && GraphInv(E.T, g, owner) && SoundValues(E, input, lexval, g.items)
    requires Extends(g.items, h.items) && NoNewValues(g.items, h.items)
    ensures SoundValues(E, input, lexval, h.items)
  {
    hide SoundValues, Extends, NoNewValues, GraphCore, Forest;
    ForestParts(E.T, g.items);
    SoundStays(E, input, lexval, RankOf(E.T), g.items, h.items);
  }

  /** The bottom of the stack. */
  lemma SoundBottom(E: Setting, input: nat -> int, lexval: nat -> int, items: seq<Item>)
    requires E.T.Ranges() && |items| == 1 && items[0].State? && items[0].pred == NULL
    ensures SoundValues(E, input, lexval, items)
  {
    hide TokensFit;
    assert KeyOf(E.T, items, 0) == Key(EOF, 0, 0);
  }

  /** A token is shifted. */
  lemma SoundShift(E: Setting, input: nat -> int, lexval: nat -> int, g: Graph, k: nat, lr: nat, at: nat,
                   owner: map<int, int>)
    requires E.T.Ranges() && EdgesOk(E.T) && GraphInv(E.T, g, owner) && SoundValues(E, input, lexval, g.items)
    requires k < |g.tops| && 0 <= g.tops[k] < |g.items| && g.items[g.tops[k]].State? && g.items[g.tops[k]].posn == at
    requires (g.items[g.tops[k]].lr, TokenAt(E.T, input, at), lr) in E.T.edges
    ensures SoundValues(E, input, lexval, AddState(g, k, lr, at + 1, Resolved(lexval(at))).items)
  {
    hide SoundValues, GraphCore, Forest, TokenAt, SoundValue;
    ForestParts(E.T, g.items);
    TokenIsSound(E, input, lexval, at);
    SoundPush(E, input, lexval, RankOf(E.T), g, k, lr, at + 1, lexval(at));
  }

  /** A reduction on the one stack g, popped to h. */
  lemma SoundReduced(E: Setting, input: nat -> int, lexval: nat -> int, g: Graph, h: Graph, r: nat, lr: nat, posn: nat,
                     vals: seq<int>, count: nat, owner: map<int, int>, owner': map<int, int>)
    requires E.T.Ranges() && Good(E, RankOf(E.T)) && EdgesOk(E.T) && 1 < r < E.T.Rules()
    requires GraphInv(E.T, g, owner) && SoundValues(E, input, lexval, g.items)
    requires GraphInv(E.T, h, owner') && SoundValues(E, input, lexval, h.items)
    requires |g.tops| == 1 && Step(g.items, g.tops[0]) && g.items[g.tops[0]].posn == posn
    requires Reducible(E.T, g.items[g.tops[0]].lr, r)
    requires HasValues(g.items, g.tops[0], E.T.r2[r], vals) && E.act(count, r, vals).tag == YyOk
    requires |h.tops| == 1 && 0 <= h.tops[0] < |h.items| && h.items[h.tops[0]].State?
    requires h.items[h.tops[0]].posn == PosnAt(g.items, Walk(g.items, g.tops[0], E.T.r2[r]))
    requires lr < E.T.States() && E.T.stos[lr] == E.T.r1[r]
    ensures SoundValues(E, input, lexval, AddState(h, 0, lr, posn, Resolved(E.act(count, r, vals).val)).items)
  {
    hide SoundValues, GraphCore, Forest, SoundValue, Good, EdgesOk, Reducible, HasValues, PosnAt, Walk;
    ForestParts(E.T, g.items);
    ForestParts(E.T, h.items);
    CoreAutomaton(E.T, g, owner);
    SoundReduction(E, input, lexval, g.items, g.tops[0], r, vals, count);
    SoundPush(E, input, lexval, RankOf(E.T), h, 0, lr, posn, E.act(count, r, vals).val);
  }

  lemma CoreAutomaton(T: Tables, g: Graph, owner: map<int, int>)
    requires T.Ranges() && GraphCore(T, g, owner)
    ensures Automaton(T, g.items)
  {
  }

  /** The contiguous stack is cut. */
  lemma SoundTruncated(E: Setting, input: nat -> int, lexval: nat -> int, g: Graph, n: nat, owner: map<int, int>)
    requires E.T.Ranges() && GraphInv(E.T, g, owner) && SoundValues(E, input, lexval, g.items) && g.split == NULL
    requires n <= |g.items|
    ensures SoundValues(E, input, lexval, Truncated(g, n).items)
  {
    hide SoundValues, GraphCore, Forest;
    CoreLinks(E.T, g, owner);
    TruncatedForest(E.T, g, n);
    ForestParts(E.T, Truncated(g, n).items);
    SoundPrefix(E, input, lexval, RankOf(E.T), g.items, n);
  }

  lemma CoreLinks(T: Tables, g: Graph, owner: map<int, int>)
    requires T.Ranges() && GraphCore(T, g, owner)
    ensures Links(g)
  {
  }

  /** Of sound values every one is sound. */
  lemma SoundState(E: Setting, input: nat -> int, lexval: nat -> int, items: seq<Item>, i: nat)
    requires E.T.Ranges() && SoundValues(E, input, lexval, items)
    requires i < |items| && items[i].State? && items[i].sem.Resolved?
    ensures SoundValue(E, input, lexval, KeyOf(E.T, items, i), items[i].sem.val)
  {
    hide Sensible, KeyOf;
    forall fits: (Key, int) -> bool {:trigger fits(KeyOf(E.T, items, i), items[i].sem.val)} |
      Sensible(E, input, lexval, fits)
      ensures fits(KeyOf(E.T, items, i), items[i].sem.val)
    {
      assert GlrOptions.AllFit(items, Keys(E.T, items), fits);
      assert fits(Keys(E.T, items)(i), items[i].sem.val);
    }
  }
}
