/** Error recovery seen over whole runs: which errors are counted, which of them cost the
    lookahead, where the recovery lands, and when the stacks are exhausted. */
module LalrRecovery {
  import opened LrTables
  import opened ParseTrees
  import opened Lalr
  import opened LalrSoundness

  lemma RangesOf(T: Tables)
    requires ValidTables(T)
    ensures T.Ranges()
  {
    hide Tables.Ranges;
  }

  function After(T: Tables, env: Env, n: nat): Config
    requires T.Ranges()
  {
    Run(T, env, Init(env), n)
  }

  // ---------------------------------------------------------------- what has happened

  /** Step m enters yyerrlab1, be it for a syntax error or for YYERROR. */
  predicate Recovers(T: Tables, env: Env, m: nat)
    requires T.Ranges()
  {
    After(T, env, m).lab != ErrLab1 && After(T, env, m + 1).lab == ErrLab1
  }

  /** Step m shifts the token `error`. */
  predicate ShiftsError(T: Tables, env: Env, m: nat)
    requires T.Ranges()
  {
    After(T, env, m).lab == ErrLab1 && After(T, env, m + 1).lab == NewState
  }

  /** Step m runs an action that executes yyerrok. */
  predicate Forgives(T: Tables, env: Env, m: nat)
    requires T.Ranges()
  {
    After(T, env, m + 1).nred > After(T, env, m).nred && env.act(After(T, env, m).nred).errok
  }

  /** Between step m and configuration n, yyerrok has not been executed. */
  ghost predicate Unforgiven(T: Tables, env: Env, m: nat, n: nat)
    requires T.Ranges()
  {
    forall k: nat | m < k < n :: !Forgives(T, env, k)
  }

  /** The tokens shifted from the end of step m to configuration n. */
  function ShiftedSince(T: Tables, env: Env, m: nat, n: nat): int
    requires T.Ranges()
  {
    After(T, env, n).shifted - After(T, env, m + 1).shifted
  }

  /** `error` has been shifted, and neither a token nor yyerrok has come after it. */
  ghost predicate JustRecovered(T: Tables, env: Env, n: nat)
    requires T.Ranges()
  {
    exists m: nat :: m < n && ShiftsError(T, env, m) && ShiftedSince(T, env, m, n) == 0 && Unforgiven(T, env, m, n)
  }

  /** Every recovery so far lies three tokens or a yyerrok back. */
  ghost predicate Settled(T: Tables, env: Env, n: nat)
    requires T.Ranges()
  {
    forall m: nat | m < n && Recovers(T, env, m) && Unforgiven(T, env, m, n) :: ShiftedSince(T, env, m, n) >= 3
  }

  // ---------------------------------------------------------------- one step

  /** What a step does to the error status, told by what can be seen of it. */
  ghost predicate StatusStep(env: Env, c: Config, d: Config) {
    && c.lab != Crash && c.shifted <= d.shifted <= c.shifted + 1 && c.nred <= d.nred <= c.nred + 1
    && (d.lab == ErrLab1 ==> d.errstatus == if c.lab == ErrLab1 then c.errstatus else 3)
    && (d.lab != ErrLab1 && d.nred > c.nred && env.act(c.nred).errok ==> d.errstatus == 0)
    && (d.lab != ErrLab1 && !(d.nred > c.nred && env.act(c.nred).errok) ==>
          d.errstatus == if d.shifted > c.shifted && c.errstatus > 0 then c.errstatus - 1 else c.errstatus)
    && (c.lab == ErrLab1 ==> d.shifted == c.shifted && d.nred == c.nred)
    && (d.lab == ErrLab1 ==> d.shifted == c.shifted)
    && (c.lab == ErrLab1 ==> d.lab != ErrLab) && (c.lab == ErrLab ==> d.lab == ErrLab1 || d.lab.Return?)
    && (c.lab.Return? || c.lab.Done? ==> d.lab.Done?)
  }

  lemma ReduceStatus(T: Tables, env: Env, c: Config, r: nat)
    requires T.Ranges() && c.Sane(T) && c.lab == NewState && DoReduce(T, env, c, r).lab != Crash
    ensures StatusStep(env, c, DoReduce(T, env, c, r))
  {
    hide Held, CanReduce, Goto, Tables.Ranges;
  }

  lemma BackupStatus(T: Tables, env: Env, c: Config)
    requires T.Ranges() && c.Sane(T) && c.lab == NewState && Backup(T, env, c).lab != Crash
    ensures StatusStep(env, c, Backup(T, env, c))
  {
    hide DoReduce, Chosen, Translate, Tables.Ranges;
    if Chosen(T, env, c).Reduce? {
      ReduceStatus(T, env, if Defaulted(T, c.Top()) then c else ReadToken(env, c), Chosen(T, env, c).rule);
    }
  }

  lemma StepStatus(T: Tables, env: Env, c: Config)
    requires ValidTables(T) && Shape(T, c)
    ensures StatusStep(env, c, Next(T, env, c))
  {
    NextKeepsShape(T, env, c);
    StatusOfStep(T, env, c);
  }

  lemma StatusOfStep(T: Tables, env: Env, c: Config)
    requires T.Ranges() && c.Sane(T) && c.lab != Crash && Next(T, env, c).lab != Crash
    ensures StatusStep(env, c, Next(T, env, c))
  {
    hide Backup, Held, Entry, ErrorShift, Owners;
    if c.lab == NewState {
      var d := if c.cap <= |c.states| then c.(cap := Grown(env, c.cap)) else c;
      if EnterState(T, env, c) == Backup(T, env, d) {
        BackupStatus(T, env, d);
      }
    }
  }

  lemma ShapeIsSane(T: Tables, c: Config)
    requires T.Ranges() && Shape(T, c)
    ensures c.Sane(T)
  {
    hide Stack;
  }

  lemma StepAt(T: Tables, env: Env, n: nat)
    requires ValidTables(T)
    ensures Shape(T, After(T, env, n)) && After(T, env, n).Sane(T)
    ensures After(T, env, n + 1) == Next(T, env, After(T, env, n))
  {
    hide Next, Shape, ValidTables;
    RangesOf(T);
    NeverCrashes(T, env, n);
    ShapeIsSane(T, After(T, env, n));
  }

  lemma StatusAt(T: Tables, env: Env, n: nat)
    requires ValidTables(T)
    ensures StatusStep(env, After(T, env, n), After(T, env, n + 1))
  {
    hide Next, Shape, ValidTables, StatusStep, After;
    RangesOf(T);
    StepAt(T, env, n);
    StepStatus(T, env, After(T, env, n));
  }

  lemma AtStart(T: Tables, env: Env)
    requires T.Ranges()
    ensures After(T, env, 0) == Init(env)
  {
  }

  // ---------------------------------------------------------------- the error status in a run

  /** yyerrstatus is at least what the recovery of step m has left of it ... */
  lemma {:induction false} StatusAtLeast(T: Tables, env: Env, m: nat, n: nat)
    requires ValidTables(T) && m < n && (Recovers(T, env, m) || ShiftsError(T, env, m)) && Unforgiven(T, env, m, n)
    ensures After(T, env, n).errstatus >= 3 - ShiftedSince(T, env, m, n)
  {
    hide Next, After, ValidTables, Tables.Ranges;
    RangesOf(T);
    StatusAt(T, env, n - 1);
    ShiftsDown(T, env, m + 1, n);
    if n == m + 1 {
      if ShiftsError(T, env, m) {
        StatusInRecovery(T, env, m);
      }
    } else {
      assert !Forgives(T, env, n - 1);
      StatusAtLeast(T, env, m, n - 1);
    }
  }

  lemma {:induction false} StatusInRecovery(T: Tables, env: Env, n: nat)
    requires ValidTables(T) && After(T, env, n).lab == ErrLab1
    ensures After(T, env, n).errstatus == 3
  {
    hide Next, After, ValidTables, Tables.Ranges;
    RangesOf(T);
    AtStart(T, env);
    if n > 0 {
      StatusAt(T, env, n - 1);
      if After(T, env, n - 1).lab == ErrLab1 {
        StatusInRecovery(T, env, n - 1);
      }
    }
  }

  /** ... and it is no more than that of some recovery. */
  lemma {:induction false} StatusComesFrom(T: Tables, env: Env, n: nat) returns (m: nat)
    requires ValidTables(T) && After(T, env, n).errstatus > 0
    ensures m < n && Recovers(T, env, m) && Unforgiven(T, env, m, n)
    ensures After(T, env, n).errstatus == 3 - ShiftedSince(T, env, m, n)
  {
    hide Next, After, ValidTables, Tables.Ranges;
    RangesOf(T);
    AtStart(T, env);
    StatusAt(T, env, n - 1);
    m := n - 1;
    if !Recovers(T, env, n - 1) {
      assert !Forgives(T, env, n - 1);
      m := StatusComesFrom(T, env, n - 1);
    } else {
      assert After(T, env, n).errstatus == 3;
    }
  }

  /** A run that has left yyerrlab1 and goes on has shifted `error` on the way. */
  lemma {:induction false} ErrorShifted(T: Tables, env: Env, i: nat, n: nat) returns (k: nat)
    requires ValidTables(T) && i < n && After(T, env, i).lab == ErrLab1
    requires After(T, env, n).lab == NewState || After(T, env, n).lab == ErrLab
    ensures i <= k < n && ShiftsError(T, env, k)
  {
    hide Next, After, ValidTables, Tables.Ranges;
    RangesOf(T);
    StatusAt(T, env, n - 1);
    k := n - 1;
    if After(T, env, n - 1).lab != ErrLab1 {
      k := ErrorShifted(T, env, i, n - 1);
    }
  }

  /** At yyerrlab the error status is 3 exactly when an error has just been recovered from ... */
  lemma StatusIsThree(T: Tables, env: Env, n: nat)
    requires ValidTables(T) && (After(T, env, n).lab == NewState || After(T, env, n).lab == ErrLab)
    ensures After(T, env, n).errstatus == 3 <==> JustRecovered(T, env, n)
    ensures After(T, env, n).errstatus <= 3
  {
    hide Next, After, ValidTables, Tables.Ranges, Recovers, ShiftsError, Forgives;
    RangesOf(T);
    if After(T, env, n).errstatus > 0 {
      var m := StatusComesFrom(T, env, n);
      ShiftsDown(T, env, m + 1, n);
      if After(T, env, n).errstatus == 3 {
        EntersRecovery(T, env, m);
        var k := ErrorShifted(T, env, m + 1, n);
        ShiftsDown(T, env, m + 1, k + 1);
        ShiftsDown(T, env, k + 1, n);
      }
    }
    if JustRecovered(T, env, n) {
      var m: nat :| m < n && ShiftsError(T, env, m) && ShiftedSince(T, env, m, n) == 0 && Unforgiven(T, env, m, n);
      StatusAtLeast(T, env, m, n);
    }
  }

  lemma EntersRecovery(T: Tables, env: Env, m: nat)
    requires T.Ranges() && Recovers(T, env, m)
    ensures After(T, env, m + 1).lab == ErrLab1
  {
  }

  /** The tokens shifted are never fewer. */
  lemma {:induction false} ShiftsDown(T: Tables, env: Env, i: nat, n: nat)
    requires ValidTables(T) && i <= n
    ensures After(T, env, i).shifted <= After(T, env, n).shifted
  {
    hide Next, After, ValidTables, Tables.Ranges;
    RangesOf(T);
    if i < n {
      StatusAt(T, env, n - 1);
      ShiftsDown(T, env, i, n - 1);
    }
  }

  /** ... and 0 exactly when every recovery lies far enough back. */
  lemma StatusIsZero(T: Tables, env: Env, n: nat)
    requires ValidTables(T)
    ensures After(T, env, n).errstatus == 0 <==> Settled(T, env, n)
  {
    hide Next, After, ValidTables, Tables.Ranges, Recovers, ShiftsError, Forgives, Unforgiven;
    RangesOf(T);
    if After(T, env, n).errstatus > 0 {
      var m := StatusComesFrom(T, env, n);
    } else {
      forall m: nat | m < n && Recovers(T, env, m) && Unforgiven(T, env, m, n)
        ensures ShiftedSince(T, env, m, n) >= 3
      {
        StatusAtLeast(T, env, m, n);
      }
    }
  }

  // ---------------------------------------------------------------- yyerrlab

  /** A syntax error that comes right after a recovery costs the lookahead, or ends the parse
      if that is the end of the input; every other one leaves the lookahead where it is. */
  lemma DiscardedExactlyWhen(T: Tables, env: Env, n: nat)
    requires ValidTables(T) && After(T, env, n).lab == ErrLab
    ensures var c, d := After(T, env, n), After(T, env, n + 1);
      if JustRecovered(T, env, n) && c.look.Some? then
        if c.look.value.raw == 0 then d.lab == Return(1) && d.look == c.look && d.released == c.released
        else d.lab == ErrLab1 && d.look == None && d.released == c.released + [TokVal(c.look.value.idx)]
      else d.lab == ErrLab1 && d.look == c.look && d.released == c.released
  {
    hide Next, After, ValidTables, Tables.Ranges, JustRecovered, Shape;
    RangesOf(T);
    StepAt(T, env, n);
    StatusIsThree(T, env, n);
    ReportStep(T, env, After(T, env, n));
  }

  lemma ReportStep(T: Tables, env: Env, c: Config)
    requires T.Ranges() && Shape(T, c) && c.lab == ErrLab
    ensures Next(T, env, c) == ReportError(c)
  {
    hide Stack, ReportError;
  }

  /** yynerrs grows exactly by the syntax errors before which every recovery lies three tokens
      or a yyerrok back. */
  lemma CountedExactlyWhen(T: Tables, env: Env, n: nat)
    requires ValidTables(T)
    ensures After(T, env, n + 1).nerrs == After(T, env, n).nerrs +
      if After(T, env, n).lab == ErrLab && Settled(T, env, n) then 1 else 0
  {
    hide Next, After, ValidTables, Tables.Ranges, Settled, Shape;
    RangesOf(T);
    StepAt(T, env, n);
    StatusIsZero(T, env, n);
    StepCounts(T, env, After(T, env, n));
  }

  lemma BackupCounts(T: Tables, env: Env, c: Config)
    requires T.Ranges() && c.Sane(T)
    ensures Backup(T, env, c).nerrs == c.nerrs
  {
    hide Held, CanReduce, Goto, Chosen, Translate, Tables.Ranges;
  }

  lemma StepCounts(T: Tables, env: Env, c: Config)
    requires T.Ranges() && c.Sane(T)
    ensures Next(T, env, c).nerrs == c.nerrs + if c.lab == ErrLab && c.errstatus == 0 then 1 else 0
  {
    hide Backup, ErrorShift, Tables.Ranges;
    if c.lab == NewState {
      BackupCounts(T, env, if c.cap <= |c.states| then c.(cap := Grown(env, c.cap)) else c);
    }
  }

  /** The lookahead is still in hand, or it has been shifted. */
  predicate GoesOn(T: Tables, c: Config, d: Config)
    requires T.Ranges() && c.look.Some?
  {
    || d.look == c.look
    || (d.look == None && d.shifted == c.shifted + 1
        && d.vals == c.vals + [Leaf(Translate(T, c.look.value.raw), c.look.value.idx)])
  }

  /** A lookahead is given up in three ways only: it is shifted, it is discarded by an error
      right after a recovery, or the parse ends. */
  lemma LookaheadStays(T: Tables, env: Env, n: nat)
    requires ValidTables(T) && After(T, env, n).look.Some?
    ensures var c, d := After(T, env, n), After(T, env, n + 1);
      || GoesOn(T, c, d)
      || (d.look == None && c.lab == ErrLab && JustRecovered(T, env, n) && c.look.value.raw != 0)
      || (d.look == None && c.lab.Return?)
  {
    hide Next, After, ValidTables, Tables.Ranges, JustRecovered, Shape;
    RangesOf(T);
    StepAt(T, env, n);
    if After(T, env, n).lab == ErrLab {
      DiscardedExactlyWhen(T, env, n);
    }
    StepKeepsLook(T, env, After(T, env, n));
  }

  lemma BackupKeepsLook(T: Tables, env: Env, c: Config)
    requires T.Ranges() && c.Sane(T) && c.look.Some?
    ensures GoesOn(T, c, Backup(T, env, c))
  {
    hide Held, Goto, CanReduce, Chosen, Translate, Tables.Ranges;
  }

  lemma StepKeepsLook(T: Tables, env: Env, c: Config)
    requires T.Ranges() && c.Sane(T) && c.look.Some?
    ensures GoesOn(T, c, Next(T, env, c)) || (Next(T, env, c).look == None && (c.lab == ErrLab || c.lab.Return?))
  {
    hide Backup, Owners, ErrorShift, Popped, Translate, Tables.Ranges;
    if c.lab == NewState {
      BackupKeepsLook(T, env, if c.cap <= |c.states| then c.(cap := Grown(env, c.cap)) else c);
    }
  }

  // ---------------------------------------------------------------- yyerrlab1

  /** The topmost state that can shift `error`. */
  predicate Landing(T: Tables, states: seq<nat>, i: nat)
    requires T.Ranges()
  {
    && i < |states| && states[i] < T.States() && ErrorShift(T, states[i]).Some?
    && forall j | i < j < |states| :: states[j] < T.States() && ErrorShift(T, states[j]).None?
  }

  lemma PopOnce(T: Tables, env: Env, c: Config)
    requires T.Ranges() && Shape(T, c) && c.lab == ErrLab1
    ensures |c.states| == |c.vals| + 1 && c.Top() < T.States()
    ensures var d := Next(T, env, c);
      d.look == c.look &&
      if ErrorShift(T, c.Top()).Some? then
        && d.lab == NewState && d.states == c.states + [ErrorShift(T, c.Top()).value]
        && d.vals == c.vals + [ErrLeaf] && d.released == c.released
      else if c.vals == [] then d.lab == Return(1) && d.vals == c.vals && d.released == c.released
      else
        && d.lab == ErrLab1 && d.states == c.states[..|c.states|-1] && d.vals == c.vals[..|c.vals|-1]
        && d.released == c.released + Owners(c.vals[|c.vals|-1])
  {
    hide Stack, ErrorShift, Owners;
  }

  /** The recovery pops down to the topmost state that can shift `error`, and shifts it there ... */
  lemma {:induction false} RecoveryLands(T: Tables, env: Env, n: nat, i: nat)
    requires ValidTables(T) && After(T, env, n).lab == ErrLab1
    requires Landing(T, After(T, env, n).states, i)
    ensures var c := After(T, env, n);
      var d := After(T, env, n + |c.states| - i);
      && d.lab == NewState && d.look == c.look && i <= |c.vals|
      && d.states == c.states[..i+1] + [ErrorShift(T, c.states[i]).value] && d.vals == c.vals[..i] + [ErrLeaf]
      && d.released == c.released + Popped(c.vals[i..])
    decreases |After(T, env, n).states|
  {
    hide Next, ValidTables, Tables.Ranges, After, Shape, ErrorShift, Popped;
    RangesOf(T);
    var c := After(T, env, n);
    StepAt(T, env, n);
    PopOnce(T, env, c);
    if i < |c.states| - 1 {
      var d := After(T, env, n + 1);
      RecoveryLands(T, env, n + 1, i);
      assert c.vals[i..][..|c.vals|-i-1] == d.vals[i..];
      PoppedLast(c.vals[i..], c.released);
      assert d.states[..i+1] == c.states[..i+1] && d.vals[..i] == c.vals[..i];
    } else {
      NonePopped();
      assert c.vals[i..] == [];
    }
  }

  /** ... and if there is no such state, everything is popped and the parse fails. */
  lemma {:induction false} RecoveryFails(T: Tables, env: Env, n: nat)
    requires ValidTables(T) && After(T, env, n).lab == ErrLab1
    requires forall j {:trigger After(T, env, n).states[j]} | 0 <= j < |After(T, env, n).states| ::
      After(T, env, n).states[j] < T.States() && ErrorShift(T, After(T, env, n).states[j]).None?
    ensures var c := After(T, env, n);
      var d := After(T, env, n + |c.states|);
      d.lab == Return(1) && d.look == c.look && d.vals == [] && d.released == c.released + Popped(c.vals)
    decreases |After(T, env, n).states|
  {
    hide Next, ValidTables, Tables.Ranges, After, Shape, ErrorShift, Popped;
    RangesOf(T);
    var c := After(T, env, n);
    StepAt(T, env, n);
    PopOnce(T, env, c);
    if c.vals == [] {
      NonePopped();
    } else {
      RecoveryFails(T, env, n + 1);
      PoppedLast(c.vals, c.released);
    }
  }

  // ---------------------------------------------------------------- memory exhaustion

  /** The stacks have room, and the next state has a slot unless yysetstate is to look for one. */
  ghost predicate Roomy(env: Env, c: Config) {
    && c.cap <= env.maxDepth && |c.states| <= c.cap
    && (c.lab == ErrLab || c.lab == ErrLab1 ==> |c.states| < c.cap)
    && (c.lab.Return? ==> c.lab.code != 2 || |c.states| == env.maxDepth)
  }

  lemma ReduceRoomy(T: Tables, env: Env, c: Config, r: nat)
    requires T.Ranges() && c.Sane(T) && c.lab == NewState && Roomy(env, c) && |c.states| < c.cap
    ensures Roomy(env, DoReduce(T, env, c, r)) && DoReduce(T, env, c, r).lab != Return(2)
  {
    hide Held, Goto;
  }

  lemma BackupRoomy(T: Tables, env: Env, c: Config)
    requires T.Ranges() && c.Sane(T) && c.lab == NewState && Roomy(env, c) && |c.states| < c.cap
    ensures Roomy(env, Backup(T, env, c)) && Backup(T, env, c).lab != Return(2)
  {
    hide DoReduce, Chosen, Translate, Tables.Ranges;
    if Chosen(T, env, c).Reduce? {
      ReduceRoomy(T, env, if Defaulted(T, c.Top()) then c else ReadToken(env, c), Chosen(T, env, c).rule);
    }
  }

  lemma NextRoomy(T: Tables, env: Env, c: Config)
    requires T.Ranges() && c.Sane(T) && Roomy(env, c)
    ensures Roomy(env, Next(T, env, c))
    ensures c.lab == NewState ==> (Next(T, env, c).lab == Return(2) <==> |c.states| == env.maxDepth)
  {
    hide Backup, Held, Entry, Owners, Popped;
    if c.lab == NewState {
      var d := if c.cap <= |c.states| then c.(cap := Grown(env, c.cap)) else c;
      if |d.states| < d.cap {
        BackupRoomy(T, env, d);
      }
    }
  }

  /** yyparse runs out of memory exactly when it enters a state with YYMAXDEPTH of them on the stack. */
  lemma {:induction false} ExhaustedExactlyWhen(T: Tables, env: Env, n: nat)
    requires ValidTables(T) && 0 < env.initDepth <= env.maxDepth
    ensures Roomy(env, After(T, env, n))
    ensures After(T, env, n).lab == NewState ==>
      (After(T, env, n + 1).lab == Return(2) <==> |After(T, env, n).states| == env.maxDepth)
  {
    hide Next, After, ValidTables, Tables.Ranges;
    RangesOf(T);
    AtStart(T, env);
    if n > 0 {
      ExhaustedExactlyWhen(T, env, n - 1);
      StepAt(T, env, n - 1);
      NextRoomy(T, env, After(T, env, n - 1));
    }
    StepAt(T, env, n);
    NextRoomy(T, env, After(T, env, n));
  }
}
