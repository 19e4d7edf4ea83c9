/** Lookahead correction: yy_lac runs the parser ahead on a virtual stack, made of a
    prefix of the real stack and an array of its own, to find out whether the lookahead
    can be shifted in the end. */
module Lac {
  import opened LrTables
  import opened ParseTrees
  import opened Lalr
  import opened LalrSoundness
  import opened LalrTermination

  // ---------------------------------------------------------------- what yy_lac has to find out

  /** The action x leads to once all reductions it asks for have been done. */
  ghost predicate Outlook(T: Tables, states: seq<nat>, x: nat, n: nat, shifts: bool)
    requires T.Ranges()
  {
    var p := ReduceN(T, states, x, n);
    && Settles(T, states, x, n)
    && p != [] && p[|p|-1] < T.States() && p[|p|-1] != T.final
    && (if shifts then Act(T, p[|p|-1], x).Shift? else Act(T, p[|p|-1], x) == Error)
  }

  /** After finitely many reductions the driver shifts x. */
  ghost predicate EventuallyShifts(T: Tables, states: seq<nat>, x: nat)
    requires T.Ranges()
  {
    exists n: nat :: Outlook(T, states, x, n, true)
  }

  /** After finitely many reductions the driver reports a syntax error at x. */
  ghost predicate EventuallyErrs(T: Tables, states: seq<nat>, x: nat)
    requires T.Ranges()
  {
    exists n: nat :: Outlook(T, states, x, n, false)
  }

  /** After n reductions the stack is deeper than the limit. */
  ghost predicate Exceeds(T: Tables, states: seq<nat>, x: nat, n: nat, limit: nat)
    requires T.Ranges()
  {
    |ReduceN(T, states, x, n)| > limit
  }

  lemma {:induction false} ReduceNStep(T: Tables, states: seq<nat>, x: nat, n: nat)
    requires T.Ranges()
    ensures var p := ReduceN(T, states, x, n);
            ReduceN(T, states, x, n + 1) == if Reduces(T, p, x) then Reduced(T, p, x) else p
    decreases n
  {
    if n > 0 && Reduces(T, states, x) {
      ReduceNStep(T, Reduced(T, states, x), x, n - 1);
    }
  }

  lemma {:induction false} SettledStays(T: Tables, states: seq<nat>, x: nat, n: nat, m: nat)
    requires T.Ranges() && Settles(T, states, x, n) && n <= m
    ensures ReduceN(T, states, x, m) == ReduceN(T, states, x, n)
    decreases m
  {
    if n < m {
      SettledStays(T, states, x, n, m - 1);
      ReduceNStep(T, states, x, m - 1);
    }
  }

  /** The two outcomes exclude each other. */
  lemma OneOutlook(T: Tables, states: seq<nat>, x: nat)
    requires T.Ranges()
    ensures !(EventuallyShifts(T, states, x) && EventuallyErrs(T, states, x))
  {
    forall n: nat, m: nat | Outlook(T, states, x, n, true)
      ensures !Outlook(T, states, x, m, false)
    {
      if Outlook(T, states, x, m, false) {
        SettledStays(T, states, x, if n < m then n else m, if n < m then m else n);
      }
    }
  }

  // ---------------------------------------------------------------- stacks stay legal

  ghost predicate Live(T: Tables, p: seq<nat>)
    requires T.Ranges()
  {
    Stack(T, p) && p[|p|-1] != T.final
  }

  /** A reduction chosen on a legal stack can be done, and leads to a legal stack. */
  lemma ReducedLive(T: Tables, p: seq<nat>, x: nat)
    requires ValidTables(T) && Live(T, p) && x < T.ntokens && Act(T, p[|p|-1], x).Reduce?
    ensures Reduces(T, p, x) && Live(T, Reduced(T, p, x))
    ensures var r := Act(T, p[|p|-1], x).rule;
      && 0 < r < T.Rules() && T.r2[r] < |p|
      && var q := p[..|p| - T.r2[r]];
         Goto(T, q[|q|-1], T.r1[r]) >= 0 && Reduced(T, p, x) == q + [Goto(T, q[|q|-1], T.r1[r])]
  {
    hide Reducible, EdgesOk, Entry, Goto, FinalOk, Spell;
    assert ActionOk(T, p[|p|-1], x);
    var r := Act(T, p[|p|-1], x).rule;
    ReduceOnStack(T, p, r);
    NotFinal(T, p[..|p| - T.r2[r]][|p| - T.r2[r] - 1], r);
  }

  lemma NotFinal(T: Tables, s: nat, r: nat)
    requires T.Ranges() && FinalOk(T) && 0 < r < T.Rules()
    requires Goto(T, s, T.r1[r]) >= 0 && (s, T.r1[r], Goto(T, s, T.r1[r])) in T.edges
    ensures Goto(T, s, T.r1[r]) != T.final
  {
  }

  lemma {:induction false} ReduceNLive(T: Tables, p: seq<nat>, x: nat, n: nat)
    requires ValidTables(T) && Live(T, p) && x < T.ntokens
    ensures var q := ReduceN(T, p, x, n); q != [] && Live(T, q) && q[|q|-1] < T.States()
    decreases n
  {
    hide ActionOk, EdgesOk, FinalOk, CanReduce, Goto, Act;
    if n > 0 && Reduces(T, p, x) {
      ReducedLive(T, p, x);
      ReduceNLive(T, Reduced(T, p, x), x, n - 1);
    }
  }

  // ---------------------------------------------------------------- yy_lac

  class LookaheadCorrector {
    const T: Tables
    const maxDepth: nat          // YYMAXDEPTH
    var yyes: array<nat>         // the virtual part of the stack
    var yyesCapacity: nat

    ghost predicate Valid()
      reads this
    {
      yyes.Length == yyesCapacity > 0
    }

    constructor (T: Tables, initial: nat, maxDepth: nat)
      requires 0 < initial
      ensures this.T == T && this.maxDepth == maxDepth && Valid() && fresh(yyes)
    {
      this.T, this.maxDepth := T, maxDepth;
      yyes, yyesCapacity := new nat[initial], initial;
    }

    /** Make room for one more element on top of the first `used`; fails when that would
        exceed YYMAXDEPTH. */
    method Realloc(used: nat) returns (exhausted: bool)
      requires Valid() && used <= yyesCapacity
      modifies this`yyes, this`yyesCapacity
      ensures Valid() && (yyes == old(yyes) || fresh(yyes))
      ensures exhausted ==> used + 1 > maxDepth && used == yyesCapacity
      ensures !exhausted ==> used < yyesCapacity
      ensures used <= yyes.Length && yyes[..used] == old(yyes[..used])
    {
      if yyesCapacity < used + 1 {
        if maxDepth < used + 1 {
          return true;
        }
        var size := 2 * (used + 1);
        if maxDepth < size {
          size := maxDepth;
        }
        var bigger := new nat[size];
        var i := 0;
        while i < used
          invariant 0 <= i <= used
          invariant bigger[..i] == yyes[..i]
          modifies bigger
        {
          bigger[i] := yyes[i];
          i := i + 1;
        }
        yyes, yyesCapacity := bigger, size;
      }
      return false;
    }

    /** Pop n elements of the two-part stack: first virtual ones, then, only in the
        private index `prev`, real ones. */
    method Pop(ghost yyss: seq<nat>, prev: nat, used: nat, n: nat) returns (prev': nat, used': nat)
      requires Valid() && prev < |yyss| && used <= yyesCapacity && n <= prev + used
      ensures prev' <= prev && used' <= used
      ensures var v := yyss[..prev + 1] + yyes[..used];
              yyss[..prev' + 1] + yyes[..used'] == v[..|v| - n]
    {
      if n < used {
        return prev, used - n;
      }
      prev', used' := prev - (n - used), 0;
    }

    static ghost function RealStack(yyss: array<nat>, yyssp: nat): seq<nat>
      requires yyssp < yyss.Length
      reads yyss
    {
      yyss[..yyssp + 1]
    }

    /** The two-part stack. */
    ghost function Virtual(yyss: seq<nat>, prev: nat, used: nat): seq<nat>
      requires prev < |yyss| && used <= yyes.Length
      reads this, yyes
    {
      yyss[..prev + 1] + yyes[..used]
    }

    lemma NothingVirtual(stack0: seq<nat>)
      requires stack0 != []
      ensures Virtual(stack0, |stack0| - 1, 0) == stack0
    {
    }

    /** The state on top of the two-part stack. */
    method Peek(yyss: array<nat>, ghost stack0: seq<nat>, prev: nat, used: nat) returns (top: nat)
      requires |stack0| <= yyss.Length && yyss[..|stack0|] == stack0 && prev < |stack0| && used <= yyes.Length
      ensures var v := Virtual(stack0, prev, used); v != [] && top == v[|v|-1]
    {
      top := if used > 0 then yyes[used - 1] else yyss[prev];
    }

    /** Reduce by r on the virtual stack v: the goto is pushed on the virtual part. */
    method VirtualReduce(yyss: array<nat>, ghost stack0: seq<nat>, prev: nat, used: nat, x: nat, r: nat)
      returns (prev': nat, used': nat, exhausted: bool)
      requires T.Ranges() && Valid() && yyss != yyes
      requires |stack0| <= yyss.Length && yyss[..|stack0|] == stack0
      requires prev < |stack0| && used <= yyesCapacity
      requires var v := Virtual(stack0, prev, used);
               Reduces(T, v, x) && Act(T, v[|v|-1], x) == Reduce(r)
      modifies this, yyes
      ensures Valid() && (yyes == old(yyes) || fresh(yyes))
      ensures prev' <= prev && used' <= yyesCapacity
      ensures var v := old(Virtual(stack0, prev, used));
        && (exhausted ==> |Reduced(T, v, x)| > maxDepth)
        && (!exhausted ==> Virtual(stack0, prev', used') == Reduced(T, v, x))
    {
      hide Goto, Act;
      ghost var v := Virtual(stack0, prev, used);
      prev', used' := Pop(stack0, prev, used, T.r2[r]);
      ghost var w := Virtual(stack0, prev', used');
      var below := if used' > 0 then yyes[used' - 1] else yyss[prev'];
      assert below == w[|w|-1];
      var g := Goto(T, below, T.r1[r]);
      exhausted := false;
      if used' > 0 {
        exhausted := Realloc(used');
        if exhausted {
          return;
        }
      }
      yyes[used'] := g;
      used' := used' + 1;
      assert Virtual(stack0, prev', used') == w + [g];
    }

    /** Whether x can eventually be shifted on the stack whose top is yyss[yyssp]: 0 if
        so, 1 if not, 2 if memory runs out.  The real stack is not written. */
    method YyLac(yyss: array<nat>, yyssp: nat, x: nat) returns (status: nat)
      requires T.Ranges() && ValidTables(T) && Valid() && yyss != yyes
      requires yyssp < yyss.Length && Live(T, RealStack(yyss, yyssp)) && x < T.ntokens
      requires Ends(T, RealStack(yyss, yyssp), x)
      modifies this, yyes
      ensures Valid() && (yyes == old(yyes) || fresh(yyes))
      ensures x == UNDEFTOK ==> status == 1
      ensures status <= 2
      ensures x != UNDEFTOK && status != 2 ==>
                && (status == 0 <==> EventuallyShifts(T, RealStack(yyss, yyssp), x))
                && (status == 1 <==> EventuallyErrs(T, RealStack(yyss, yyssp), x))
      ensures status == 2 ==> exists n: nat :: Exceeds(T, RealStack(yyss, yyssp), x, n, maxDepth)
    {
      hide ValidTables, Path, Reducible, Settles, Goto, CanReduce, Entry, Act, Reduces, Reduced, EventuallyShifts,
        EventuallyErrs, Exceeds, LookaheadCorrector.Virtual;
      if x == UNDEFTOK {
        return 1;
      }
      ghost var stack0 := RealStack(yyss, yyssp);
      ghost var end: nat :| Settles(T, stack0, x, end);
      var prev: nat, used: nat := yyssp, 0;
      NothingVirtual(stack0);
      ghost var n: nat := 0;
      while true
        invariant Valid() && yyss != yyes && (yyes == old(yyes) || fresh(yyes))
        invariant RealStack(yyss, yyssp) == stack0
        invariant prev <= yyssp && used <= yyesCapacity
        invariant Virtual(stack0, prev, used) == ReduceN(T, stack0, x, n)
        invariant n <= end
        decreases end - n
      {
        ghost var v := ReduceN(T, stack0, x, n);
        ReduceNLive(T, stack0, x, n);
        var top := Peek(yyss, stack0, prev, used);
        match Act(T, top, x) {
          case Error =>
            Conclude(T, stack0, x, n, false);
            return 1;
          case Shift(_) =>
            Conclude(T, stack0, x, n, true);
            return 0;
          case Reduce(r) =>
            ReducedLive(T, v, x);
            ReduceNStep(T, stack0, x, n);
            SettledMoves(T, stack0, x, end, n);
            var exhausted;
            prev, used, exhausted := VirtualReduce(yyss, stack0, prev, used, x, r);
            n := n + 1;
            if exhausted {
              assert RealStack(yyss, yyssp) == stack0;
              TooDeep(T, stack0, x, n, maxDepth);
              return 2;
            }
        }
      }
    }
  }

  lemma Conclude(T: Tables, states: seq<nat>, x: nat, n: nat, shifts: bool)
    requires T.Ranges()
    requires var p := ReduceN(T, states, x, n);
      && p != [] && p[|p|-1] < T.States() && p[|p|-1] != T.final
      && (if shifts then Act(T, p[|p|-1], x).Shift? else Act(T, p[|p|-1], x) == Error)
    ensures shifts ==> EventuallyShifts(T, states, x) && !EventuallyErrs(T, states, x)
    ensures !shifts ==> EventuallyErrs(T, states, x) && !EventuallyShifts(T, states, x)
  {
    assert Outlook(T, states, x, n, shifts);
    OneOutlook(T, states, x);
  }

  lemma TooDeep(T: Tables, states: seq<nat>, x: nat, n: nat, limit: nat)
    requires T.Ranges() && |ReduceN(T, states, x, n)| > limit
    ensures exists m: nat :: Exceeds(T, states, x, m, limit)
  {
    assert Exceeds(T, states, x, n, limit);
  }

  lemma SettledMoves(T: Tables, states: seq<nat>, x: nat, end: nat, n: nat)
    requires T.Ranges() && Settles(T, states, x, end) && n <= end
    requires Reduces(T, ReduceN(T, states, x, n), x)
    ensures n < end
  {
  }

  // ---------------------------------------------------------------- the real driver agrees

  /** The stack is within what has been allocated for it; outside yysetstate there is room
      for one more state. */
  predicate Allocated(c: Config) {
    0 < |c.states| <= c.cap && (c.lab == ErrLab || c.lab == ErrLab1 ==> |c.states| < c.cap)
  }

  /** So it always is: yysetstate extends the stack before it gets too small. */
  lemma {:induction false} AlwaysAllocated(T: Tables, env: Env, n: nat)
    requires T.Ranges() && ValidTables(T) && env.initDepth > 0
    ensures Allocated(Run(T, env, Init(env), n))
  {
    hide Next, ValidTables;
    if n > 0 {
      AlwaysAllocated(T, env, n - 1);
      NeverCrashes(T, env, n - 1);
      NextAllocated(T, env, Run(T, env, Init(env), n - 1));
    }
  }

  lemma NextAllocated(T: Tables, env: Env, c: Config)
    requires T.Ranges() && c.Sane(T) && Allocated(c)
    ensures Allocated(Next(T, env, c))
  {
    hide Held, Goto, Entry, Act, Backup, Popped, Owners;
    if c.lab == NewState {
      var d := if c.cap <= |c.states| then c.(cap := Grown(env, c.cap)) else c;
      if |d.states| < d.cap {
        BackupAllocated(T, env, d);
      }
    }
  }

  lemma BackupAllocated(T: Tables, env: Env, c: Config)
    requires T.Ranges() && c.Sane(T) && 0 < |c.states| < c.cap && c.lab == NewState
    ensures Allocated(Backup(T, env, c))
  {
    hide Held, Goto, Entry, Act, DoReduce, DoShift;
    var d := if Defaulted(T, c.Top()) then c else ReadToken(env, c);
    match Chosen(T, env, c) {
      case Shift(t) => ShiftAllocated(T, d, t);
      case Reduce(r) => ReduceAllocated(T, env, d, r);
      case Error =>
    }
  }

  lemma ShiftAllocated(T: Tables, c: Config, t: nat)
    requires 0 < |c.states| < c.cap
    ensures c.look.Some? ==> Allocated(DoShift(T, c, t))
  {
    hide Translate;
  }

  lemma ReduceAllocated(T: Tables, env: Env, c: Config, r: nat)
    requires T.Ranges() && 0 < |c.states| < c.cap && |c.vals| == |c.states| - 1
    ensures Allocated(DoReduce(T, env, c, r))
  {
    hide Held, Goto;
  }

  /** The driver's next n actions end normally, and its stack stays below YYMAXDEPTH. */
  ghost predicate Unhindered(T: Tables, env: Env, c: Config, n: nat)
    requires T.Ranges()
  {
    && (forall i | c.nred <= i < c.nred + n :: env.act(i).outcome == Normal)
    && (forall j: nat | j <= n :: |ReduceN(T, c.states, X(T, env, c), j)| < env.maxDepth)
    && (forall j: nat | j < n :: Reduces(T, ReduceN(T, c.states, X(T, env, c), j), X(T, env, c)))
  }

  /** The driver, keeping its lookahead, goes through the very stacks yy_lac simulates,
      extending its own where it has to. */
  lemma {:induction false} DriverFollows(T: Tables, env: Env, c: Config, n: nat)
    requires T.Ranges() && ValidTables(T) && Shape(T, c) && c.lab == NewState && c.look.Some? && Allocated(c)
    requires Unhindered(T, env, c, n)
    ensures var d := Run(T, env, c, n);
      && Shape(T, d) && d.lab == NewState && d.look == c.look && Allocated(d)
      && d.nred == c.nred + n && d.shifted == c.shifted
      && d.states == ReduceN(T, c.states, X(T, env, c), n)
  {
    hide ValidTables, Path, Reducible, Goto, Entry, Next, Reduced, Tables.Ranges, Allocated, Reduces, Translate;
    if n > 0 {
      DriverFollows(T, env, c, n - 1);
      var d := Run(T, env, c, n - 1);
      var x := X(T, env, c);
      assert |ReduceN(T, c.states, x, n - 1)| < env.maxDepth;
      assert Reduces(T, ReduceN(T, c.states, x, n - 1), x);
      ReduceNStep(T, c.states, x, n - 1);
      NextKeepsShape(T, env, d);
      DriverReduces(T, env, d);
    }
  }

  lemma DriverReduces(T: Tables, env: Env, d: Config)
    requires T.Ranges() && d.Sane(T) && d.lab == NewState && d.look.Some? && Allocated(d) && |d.states| < env.maxDepth
    requires Reduces(T, d.states, X(T, env, d)) && env.act(d.nred).outcome == Normal
    ensures var e := Next(T, env, d);
      && e.lab == NewState && e.look == d.look && Allocated(e)
      && e.nred == d.nred + 1 && e.shifted == d.shifted
      && e.states == Reduced(T, d.states, X(T, env, d))
  {
    hide Goto, Held, Backup;
    var c := if d.cap <= |d.states| then d.(cap := Grown(env, d.cap)) else d;
    assert Next(T, env, d) == Backup(T, env, c);
    BackupReduces(T, env, c);
  }

  lemma BackupReduces(T: Tables, env: Env, c: Config)
    requires T.Ranges() && c.Sane(T) && c.lab == NewState && c.look.Some? && |c.states| < c.cap
    requires Reduces(T, c.states, X(T, env, c)) && env.act(c.nred).outcome == Normal
    ensures var e := Backup(T, env, c);
      && e.lab == NewState && e.look == c.look && Allocated(e)
      && e.nred == c.nred + 1 && e.shifted == c.shifted
      && e.states == Reduced(T, c.states, X(T, env, c))
  {
    hide Goto, Held;
  }

  /** What yy_lac predicts happens: the driver shifts the very lookahead it was asked
      about, or reports a syntax error with that lookahead still in hand. */
  lemma PredictionComesTrue(T: Tables, env: Env, c: Config, n: nat, shifts: bool)
    requires T.Ranges() && ValidTables(T) && Shape(T, c) && c.lab == NewState && c.look.Some? && Allocated(c)
    requires Outlook(T, c.states, X(T, env, c), n, shifts) && Unhindered(T, env, c, n)
    ensures var d := Run(T, env, c, n); var e := Run(T, env, c, n + 1);
      && d.look == c.look && d.shifted == c.shifted
      && (shifts ==> e.shifted == c.shifted + 1 && e.look.None?)
      && (!shifts ==> e.lab == ErrLab && e.look == c.look && e.shifted == c.shifted && e.states == d.states)
  {
    hide ValidTables, Path, Reducible, Goto, Entry, Reduces, Next, Act;
    DriverFollows(T, env, c, n);
    var d := Run(T, env, c, n);
    assert |ReduceN(T, c.states, X(T, env, c), n)| < env.maxDepth;
    assert Run(T, env, c, n + 1) == Next(T, env, d);
    DriverConcludes(T, env, d, shifts);
  }

  /** The step that ends the reductions. */
  lemma DriverConcludes(T: Tables, env: Env, d: Config, shifts: bool)
    requires T.Ranges() && d.Sane(T) && d.lab == NewState && d.look.Some? && Allocated(d) && |d.states| < env.maxDepth
    requires d.Top() != T.final
    requires if shifts then Act(T, d.Top(), X(T, env, d)).Shift? else Act(T, d.Top(), X(T, env, d)) == Error
    ensures var e := Next(T, env, d);
      && (shifts ==> e.shifted == d.shifted + 1 && e.look.None?)
      && (!shifts ==> e.lab == ErrLab && e.look == d.look && e.shifted == d.shifted && e.states == d.states)
  {
    hide Goto, Held, Entry, Act, Backup;
    var c := if d.cap <= |d.states| then d.(cap := Grown(env, d.cap)) else d;
    assert Next(T, env, d) == Backup(T, env, c);
    BackupConcludes(T, env, c, shifts);
  }

  lemma BackupConcludes(T: Tables, env: Env, c: Config, shifts: bool)
    requires T.Ranges() && c.Sane(T) && c.lab == NewState && c.look.Some?
    requires if shifts then Act(T, c.Top(), X(T, env, c)).Shift? else Act(T, c.Top(), X(T, env, c)) == Error
    ensures var e := Backup(T, env, c);
      && (shifts ==> e.shifted == c.shifted + 1 && e.look.None?)
      && (!shifts ==> e.lab == ErrLab && e.look == c.look && e.shifted == c.shifted && e.states == c.states)
  {
    hide Goto, Held, Act;
  }

  /** Some first n settles the stack: then the driver reduces n times and stops reducing. */
  lemma {:induction false} FirstOutlook(T: Tables, states: seq<nat>, x: nat, n: nat, shifts: bool) returns (m: nat)
    requires T.Ranges() && Outlook(T, states, x, n, shifts)
    ensures m <= n && Outlook(T, states, x, m, shifts)
    ensures forall j: nat | j < m :: Reduces(T, ReduceN(T, states, x, j), x)
  {
    m := 0;
    while !Settles(T, states, x, m)
      invariant m <= n
      invariant forall j: nat | j < m :: Reduces(T, ReduceN(T, states, x, j), x)
      decreases n - m
    {
      m := m + 1;
    }
    SettledStays(T, states, x, m, n);
  }

  /** The driver keeps the lookahead until it shifts it, after n reductions. */
  ghost predicate ShiftsAfter(T: Tables, env: Env, c: Config, n: nat)
    requires T.Ranges()
  {
    var d := Run(T, env, c, n); var e := Run(T, env, c, n + 1);
    d.look == c.look && d.shifted == c.shifted && e.shifted == c.shifted + 1
  }

  /** The driver keeps the lookahead until it reports an error at it, after n reductions. */
  ghost predicate ErrsAfter(T: Tables, env: Env, c: Config, n: nat)
    requires T.Ranges()
  {
    var e := Run(T, env, c, n + 1);
    e.lab == ErrLab && e.look == c.look && e.shifted == c.shifted
  }

  /** LAC fidelity: on a lookahead whose reductions end, exactly one of yy_lac's two
      answers is right, and the driver, if its actions end normally and its stack does not
      reach YYMAXDEPTH, then does what the answer says. */
  lemma LacFidelity(T: Tables, env: Env, c: Config)
    requires T.Ranges() && ValidTables(T) && Shape(T, c) && c.lab == NewState && c.look.Some? && Allocated(c)
    requires c.Top() != T.final && Ends(T, c.states, X(T, env, c))
    requires forall i | i >= c.nred :: env.act(i).outcome == Normal
    requires forall j: nat :: |ReduceN(T, c.states, X(T, env, c), j)| < env.maxDepth
    ensures EventuallyShifts(T, c.states, X(T, env, c)) != EventuallyErrs(T, c.states, X(T, env, c))
    ensures EventuallyShifts(T, c.states, X(T, env, c)) ==> exists n: nat :: ShiftsAfter(T, env, c, n)
    ensures EventuallyErrs(T, c.states, X(T, env, c)) ==> exists n: nat :: ErrsAfter(T, env, c, n)
  {
    hide ValidTables, Path, Reducible, Goto, Entry, Reduces, Next;
    var x := X(T, env, c);
    OneOutlook(T, c.states, x);
    var end: nat :| Settles(T, c.states, x, end);
    ReduceNLive(T, c.states, x, end);
    var p := ReduceN(T, c.states, x, end);
    var shifts := Act(T, p[|p|-1], x).Shift?;
    if Act(T, p[|p|-1], x).Reduce? {
      ReducedLive(T, p, x);
    }
    var m := FirstOutlook(T, c.states, x, end, shifts);
    PredictionComesTrue(T, env, c, m, shifts);
    assert if shifts then ShiftsAfter(T, env, c, m) else ErrsAfter(T, env, c, m);
  }
}
