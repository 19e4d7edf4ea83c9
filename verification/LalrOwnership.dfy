/** Every semantic value is released exactly once, and errors are reported at most once
    per three tokens shifted. */
module LalrOwnership {
  import opened LrTables
  import opened ParseTrees
  import opened Lalr

  /** How often o is held by the lookahead. */
  function InLook(c: Config, o: Owner): nat {
    if c.look.Some? && o == TokVal(c.look.value.idx) then 1 else 0
  }

  /** The values there are: one per token read, one per action that ended normally. */
  function Existing(env: Env, c: Config, o: Owner): nat {
    match o
    case TokVal(k) => if k < c.pos then 1 else 0
    case RedVal(k) => if k < c.nred && env.act(k).outcome == Normal then 1 else 0
  }

  /** o has been created as often as it should, and it is on the stack, in the lookahead
      or released, together exactly as often. */
  ghost predicate Accounted(env: Env, c: Config, o: Owner) {
    && Count(c.created, o) == Existing(env, c, o)
    && Count(c.created, o) == Count(Held(c.vals), o) + InLook(c, o) + Count(c.released, o)
    && (c.lab.Done? ==> c.vals == [] && c.look.None?)
  }

  lemma HeldPush(ts: seq<Tree>, t: Tree, o: Owner)
    ensures Count(Held(ts + [t]), o) == Count(Held(ts), o) + Count(Owners(t), o)
  {
    PushTree(ts, t);
    CountSplit(Held(ts), Owners(t), o);
  }

  lemma HeldCut(ts: seq<Tree>, k: nat, o: Owner)
    requires k <= |ts|
    ensures Count(Held(ts), o) == Count(Held(ts[..k]), o) + Count(Held(ts[k..]), o)
  {
    assert ts[..k] + ts[k..] == ts;
    HeldSplit(ts[..k], ts[k..]);
    CountSplit(Held(ts[..k]), Held(ts[k..]), o);
  }

  lemma NoOwner(o: Owner)
    ensures Count(Owners(ErrLeaf), o) == 0
  {
  }

  lemma CountOne(w: Owner, o: Owner)
    ensures Count([w], o) == if w == o then 1 else 0
  {
    assert [w][..0] == [];
  }

  lemma ReadAccounted(env: Env, c: Config, o: Owner)
    requires Accounted(env, c, o) && !c.lab.Done?
    ensures Accounted(env, ReadToken(env, c), o)
  {
    if c.look.None? {
      CountSplit(c.created, [TokVal(c.pos)], o);
      CountOne(TokVal(c.pos), o);
    }
  }

  lemma ShiftAccounted(T: Tables, env: Env, c: Config, t: nat, o: Owner)
    requires Accounted(env, c, o) && !c.lab.Done? && c.look.Some?
    ensures Accounted(env, DoShift(T, c, t), o)
  {
    var leaf := Leaf(Translate(T, c.look.value.raw), c.look.value.idx);
    HeldPush(c.vals, leaf, o);
    CountOne(TokVal(c.look.value.idx), o);
  }

  lemma ReduceAccounted(T: Tables, env: Env, c: Config, r: nat, o: Owner)
    requires T.Ranges() && |c.vals| == |c.states| - 1 && Accounted(env, c, o) && !c.lab.Done?
    ensures Accounted(env, DoReduce(T, env, c, r), o)
  {
    hide Held, Count, Goto, Config.Top;
    if CanReduce(T, c.states, r) {
      var k := |c.vals| - T.r2[r];
      HeldCut(c.vals, k, o);
      CountSplit(c.released, Held(c.vals[k..]), o);
      HeldPush(c.vals[..k], Node(r, c.vals[k..], c.nred), o);
      CountSplit(c.created, [RedVal(c.nred)], o);
      CountOne(RedVal(c.nred), o);
    }
  }

  lemma BackupAccounted(T: Tables, env: Env, c: Config, o: Owner)
    requires T.Ranges() && c.Sane(T) && Accounted(env, c, o) && !c.lab.Done?
    ensures Accounted(env, Backup(T, env, c), o)
  {
    hide Held, Count, DoReduce, DoShift;
    var d := if Defaulted(T, c.Top()) then c else ReadToken(env, c);
    ReadAccounted(env, c, o);
    match Chosen(T, env, c) {
      case Shift(t) => if d.look.Some? { ShiftAccounted(T, env, d, t, o); }
      case Reduce(r) => ReduceAccounted(T, env, d, r, o);
      case Error =>
    }
  }

  lemma ReportAccounted(env: Env, c: Config, o: Owner)
    requires Accounted(env, c, o) && !c.lab.Done?
    ensures Accounted(env, ReportError(c), o)
  {
    hide Held, Count;
    if c.look.Some? {
      CountSplit(c.released, [TokVal(c.look.value.idx)], o);
      CountOne(TokVal(c.look.value.idx), o);
    }
  }

  lemma PopAccounted(T: Tables, env: Env, c: Config, o: Owner)
    requires T.Ranges() && c.Sane(T) && Accounted(env, c, o) && !c.lab.Done?
    ensures Accounted(env, PopForError(T, c), o)
  {
    hide Held, Entry, Owners, Count;
    HeldPush(c.vals, ErrLeaf, o);
    NoOwner(o);
    var n := |c.vals|;
    if n > 0 {
      HeldPush(c.vals[..n-1], c.vals[n-1], o);
      assert c.vals[..n-1] + [c.vals[n-1]] == c.vals;
      CountSplit(c.released, Owners(c.vals[n-1]), o);
    }
  }

  lemma CleanupAccounted(env: Env, c: Config, code: nat, o: Owner)
    requires Accounted(env, c, o) && c.states != []
    ensures Accounted(env, Cleanup(c, code), o)
  {
    var l := if c.look.Some? then [TokVal(c.look.value.idx)] else [];
    CountSplit(c.released, l, o);
    CountSplit(c.released + l, Popped(c.vals), o);
    PoppedCount(c.vals, o);
    if c.look.Some? {
      CountOne(TokVal(c.look.value.idx), o);
    }
  }

  lemma NextAccounted(T: Tables, env: Env, c: Config, o: Owner)
    requires T.Ranges() && Accounted(env, c, o)
    ensures Accounted(env, Next(T, env, c), o)
  {
    hide Held, Count, Backup, Chosen, ErrorShift, ReportError, Cleanup, PopForError;
    if c.Sane(T) {
      match c.lab {
        case NewState =>
          var d := if c.cap <= |c.states| then c.(cap := Grown(env, c.cap)) else c;
          BackupAccounted(T, env, d, o);
        case ErrLab => ReportAccounted(env, c, o);
        case ErrLab1 => PopAccounted(T, env, c, o);
        case Return(code) => CleanupAccounted(env, c, code, o);
        case Done(_) =>
        case Crash =>
      }
    }
  }

  lemma {:induction false} RunAccounted(T: Tables, env: Env, n: nat, o: Owner)
    requires T.Ranges()
    ensures Accounted(env, Run(T, env, Init(env), n), o)
  {
    if n > 0 {
      RunAccounted(T, env, n - 1, o);
      NextAccounted(T, env, Run(T, env, Init(env), n - 1), o);
    }
  }

  /** When yyparse has returned, every token value read and every $$ pushed has been
      released exactly once, and nothing else has been released at all. */
  lemma ReleasedExactlyOnce(T: Tables, env: Env, n: nat, o: Owner)
    requires T.Ranges() && Run(T, env, Init(env), n).lab.Done?
    ensures var c := Run(T, env, Init(env), n);
            Count(c.released, o) == Existing(env, c, o)
  {
    RunAccounted(T, env, n, o);
  }

  /** Nothing is ever released twice, or before it exists, in the middle of a run either. */
  lemma ReleasedAtMostOnce(T: Tables, env: Env, n: nat, o: Owner)
    requires T.Ranges()
    ensures var c := Run(T, env, Init(env), n);
            Count(c.released, o) <= Existing(env, c, o) <= 1
  {
    RunAccounted(T, env, n, o);
  }

  // ---------------------------------------------------------------- error reports

  predicate NoErrok(env: Env, n: nat) {
    forall k | 0 <= k < n :: !env.act(k).errok
  }

  ghost predicate Limited(c: Config) {
    3 * c.nerrs <= c.shifted + c.errstatus && c.errstatus <= 3
  }

  /** One step: an action is counted, and unless it executes yyerrok the limit holds on. */
  ghost predicate StepLimited(env: Env, c: Config, d: Config) {
    && c.nred <= d.nred <= c.nred + 1
    && (Limited(c) && (d.nred == c.nred || !env.act(c.nred).errok) ==> Limited(d))
  }

  lemma ReduceLimited(T: Tables, env: Env, c: Config, r: nat)
    requires T.Ranges() && |c.vals| == |c.states| - 1
    ensures StepLimited(env, c, DoReduce(T, env, c, r))
  {
    hide Held, CanReduce, Goto;
  }

  lemma BackupLimited(T: Tables, env: Env, c: Config)
    requires T.Ranges() && c.Sane(T)
    ensures StepLimited(env, c, Backup(T, env, c))
  {
    hide DoReduce;
    var d := if Defaulted(T, c.Top()) then c else ReadToken(env, c);
    if Chosen(T, env, c).Reduce? {
      ReduceLimited(T, env, d, Chosen(T, env, c).rule);
    }
  }

  lemma NextLimited(T: Tables, env: Env, c: Config)
    requires T.Ranges()
    ensures StepLimited(env, c, Next(T, env, c))
  {
    hide Backup, Held, ErrorShift;
    if c.Sane(T) && c.lab == NewState {
      BackupLimited(T, env, if c.cap <= |c.states| then c.(cap := Grown(env, c.cap)) else c);
    }
  }

  /** As long as no action has executed yyerrok, every error report but the first has
      cost three tokens shifted. */
  lemma {:induction false} ErrorsAreRateLimited(T: Tables, env: Env, n: nat)
    requires T.Ranges() && NoErrok(env, Run(T, env, Init(env), n).nred)
    ensures Limited(Run(T, env, Init(env), n))
    ensures 3 * (Run(T, env, Init(env), n).nerrs - 1) <= Run(T, env, Init(env), n).shifted
  {
    hide Next;
    if n > 0 {
      var c := Run(T, env, Init(env), n - 1);
      NextLimited(T, env, c);
      ErrorsAreRateLimited(T, env, n - 1);
    }
  }
}
