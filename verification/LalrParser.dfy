/** yyparse as the source runs it: two growing arrays indexed by yyssp, a lookahead, and
    one method per label.  Each method is proved to take the step of the state machine in
    Lalr, so what is proved of that machine's runs holds of this parser. */
module LalrParser {
  import opened LrTables
  import opened ParseTrees
  import opened Lalr
  import opened LalrSoundness
  import opened LalrOwnership
  import opened LalrTermination

  /** The configuration once the action of rule r has run and its right-hand side is off
      the stack. */
  ghost function AfterAction(T: Tables, env: Env, c: Config, r: nat): Config
    requires T.Ranges() && |c.vals| == |c.states| - 1 && CanReduce(T, c.states, r)
  {
    c.(states := c.states[..|c.states| - T.r2[r]], vals := c.vals[..|c.vals| - T.r2[r]],
       nred := c.nred + 1, released := c.released + Held(c.vals[|c.vals| - T.r2[r]..]),
       errstatus := if env.act(c.nred).errok then 0 else c.errstatus)
  }

  /** What a reduction comes to, by the outcome of the action. */
  lemma Outcomes(T: Tables, env: Env, c: Config, r: nat)
    requires T.Ranges() && |c.vals| == |c.states| - 1 && CanReduce(T, c.states, r)
    ensures var p, d := AfterAction(T, env, c, r), DoReduce(T, env, c, r);
      && 0 < r < T.Rules() && T.r2[r] < |c.states|
      && p.states != [] && p.nred == c.nred + 1 && Goto(T, p.states[|p.states|-1], T.r1[r]) >= 0
      && match env.act(c.nred).outcome
         case YyAbort => d == p.(lab := Return(1))
         case YyAccept => d == p.(lab := Return(0))
         case YyError => d == p.(lab := ErrLab1, errstatus := 3, recovered := true)
         case Normal =>
           d == p.(lab := NewState, states := p.states + [Goto(T, p.states[|p.states|-1], T.r1[r])],
                   vals := p.vals + [Node(r, c.vals[|c.vals| - T.r2[r]..], c.nred)], rules := p.rules + [r],
                   created := p.created + [RedVal(c.nred)])
  {
    hide Held, Goto;
  }

  class Parser {
    const T: Tables
    const env: Env
    var yyss: array<nat>
    var yyvs: array<Tree>
    var yyssp: nat             // yyvsp moves along with it; slot 0 of yyvs is never used
    var yystacksize: nat
    var yychar: Option<Token>
    var tokensRead: nat
    var yyerrstatus: nat
    var yynerrs: nat
    var yylen: nat
    var actions: nat           // semantic actions executed
    ghost var shifted: nat
    var rules: seq<nat>        // the rules reduced by, whose actions have run
    ghost var recovered: bool
    ghost var created: seq<Owner>
    ghost var released: seq<Owner>

    ghost predicate Valid()
      reads `yyss, `yyvs, `yystacksize, `yyssp, `yylen
    {
      yyss.Length == yyvs.Length == yystacksize && yyssp < yystacksize && yylen <= yyssp
    }

    /** All labels but yysetstate are reached with room for one more state. */
    ghost predicate Room(l: Label)
      reads this
    {
      l == ErrLab || l == ErrLab1 ==> yyssp + 1 < yystacksize && yylen == 0
    }

    ghost function States(): (s: seq<nat>)
      requires Valid()
      ensures |s| == yyssp + 1 - yylen && s[|s|-1] == yyss[yyssp - yylen]
      reads `yyss, `yyvs, `yystacksize, `yyssp, `yylen, yyss
    {
      yyss[..yyssp + 1 - yylen]
    }

    ghost function Values(): (v: seq<Tree>)
      requires Valid()
      ensures |v| == yyssp - yylen
      reads `yyss, `yyvs, `yystacksize, `yyssp, `yylen, yyvs
    {
      yyvs[1..yyssp + 1 - yylen]
    }

    ghost function At(l: Label): Config
      requires Valid()
      reads this, yyss, yyvs
    {
      Config(l, States(), Values(), yystacksize, yychar,
             tokensRead, yyerrstatus, yynerrs, actions, shifted, rules, recovered, created, released)
    }

    constructor (T: Tables, env: Env)
      requires env.initDepth > 0
      ensures this.T == T && this.env == env
      ensures Valid() && At(NewState) == Init(env) && fresh(yyss) && fresh(yyvs)
    {
      this.T := T;
      this.env := env;
      yyss := new nat[env.initDepth];
      yyvs := new Tree[env.initDepth](_ => ErrLeaf);
      yyssp, yystacksize, yychar, tokensRead := 0, env.initDepth, None, 0;
      yyerrstatus, yynerrs, yylen := 0, 0, 0;
      actions, shifted, rules, recovered, created, released := 0, 0, [], false, [], [];
      new;
      yyss[0] := 0;
    }

    /** Push a state and its value. */
    method Push(s: nat, v: Tree)
      requires Valid() && yyssp + 1 < yystacksize && yylen == 0
      modifies this`yyssp, yyss, yyvs
      ensures Valid()
      ensures States() == old(States()) + [s] && Values() == old(Values()) + [v]
    {
      yyssp := yyssp + 1;
      yyvs[yyssp] := v;
      yyss[yyssp] := s;
    }

    /** YYPOPSTACK (yylen); yylen = 0. */
    method PopHandle()
      requires Valid()
      modifies this`yyssp, this`yylen
      ensures Valid() && yylen == 0 && yyssp == old(yyssp - yylen)
      ensures States() == old(States()) && Values() == old(Values())
    {
      yyssp := yyssp - yylen;
      yylen := 0;
    }

    /** YYPOPSTACK (1). */
    method PopOne()
      requires Valid() && yyssp > 0 && yylen == 0
      modifies this`yyssp
      ensures Valid() && yyssp == old(yyssp) - 1
      ensures States() == old(States())[..yyssp + 1] && Values() == old(Values())[..yyssp]
    {
      yyssp := yyssp - 1;
    }

    /** YYSTACK_RELOCATE: bigger arrays with what is on the stacks at their start. */
    method Relocate(size: nat) returns (ss: array<nat>, vs: array<Tree>)
      requires Valid() && yylen == 0 && yystacksize <= size
      ensures fresh(ss) && fresh(vs) && ss.Length == vs.Length == size
      ensures ss[..yyssp + 1] == yyss[..yyssp + 1] && vs[..yyssp + 1] == yyvs[..yyssp + 1]
    {
      ss := new nat[size];
      vs := new Tree[size](_ => ErrLeaf);
      var i := 0;
      while i <= yyssp
        invariant 0 <= i <= yyssp + 1 <= yystacksize
        invariant ss[..i] == yyss[..i] && vs[..i] == yyvs[..i]
        modifies ss, vs
      {
        ss[i], vs[i] := yyss[i], yyvs[i];
        i := i + 1;
      }
    }

    /** Extend both stacks, keeping what is on them. */
    method Grow()
      requires Valid() && yylen == 0 && yystacksize < env.maxDepth
      modifies this`yyss, this`yyvs, this`yystacksize
      ensures Valid() && fresh(yyss) && fresh(yyvs)
      ensures yystacksize == Grown(env, old(yystacksize)) > old(yystacksize)
      ensures States() == old(States()) && Values() == old(Values())
    {
      var size := yystacksize * 2;
      if env.maxDepth < size {
        size := env.maxDepth;
      }
      var ss, vs := Relocate(size);
      assert vs[1..yyssp + 1] == vs[..yyssp + 1][1..] && yyvs[1..yyssp + 1] == yyvs[..yyssp + 1][1..];
      yyss, yyvs, yystacksize := ss, vs, size;
    }

    /** yylen is set: the topmost n states and values are to be popped. */
    method Handle(n: nat) returns (kids: seq<Tree>)
      requires Valid() && yylen == 0 && n <= yyssp
      modifies this`yylen
      ensures Valid() && yylen == n && kids == old(Values())[|old(Values())| - n..]
      ensures var c := old(At(NewState));
        At(NewState) == c.(states := c.states[..|c.states| - n], vals := c.vals[..|c.vals| - n])
    {
      kids := yyvs[yyssp + 1 - n..yyssp + 1];
      assert yyvs[1..yyssp + 1][..yyssp - n] == yyvs[1..yyssp + 1 - n];
      yylen := n;
    }

    /** The code of an action, and what becomes of the values that it consumes. */
    method Execute(kids: seq<Tree>) returns (outcome: Outcome)
      requires Valid()
      modifies this`actions, this`yyerrstatus, this`released
      ensures Valid() && outcome == env.act(old(actions)).outcome
      ensures var c := old(At(NewState));
        At(NewState) == c.(nred := c.nred + 1, released := c.released + Held(kids),
                           errstatus := if env.act(c.nred).errok then 0 else c.errstatus)
    {
      hide Held, Parser.States, Parser.Values;
      var res := env.act(actions);
      outcome := res.outcome;
      released := released + Held(kids);
      actions := actions + 1;
      if res.errok {
        yyerrstatus := 0;
      }
    }

    /** Execute the action of rule r; its right-hand side is then waiting to be popped. */
    method RunAction(r: nat) returns (kids: seq<Tree>, outcome: Outcome)
      requires T.Ranges() && Valid() && yylen == 0 && CanReduce(T, States(), r)
      modifies this`yylen, this`actions, this`yyerrstatus, this`released
      ensures Valid() && yylen == T.r2[r] && outcome == env.act(old(actions)).outcome
      ensures kids == old(Values())[|old(Values())| - T.r2[r]..]
      ensures At(NewState) == AfterAction(T, env, old(At(NewState)), r)
    {
      hide Held, Goto, Parser.States, Parser.Values;
      kids := Handle(T.r2[r]);
      outcome := Execute(kids);
    }

    /** Pop the right-hand side and push the $$ of the action just executed. */
    method PushGoto(r: nat, kids: seq<Tree>)
      requires T.Ranges() && Valid() && yyssp + 1 < yystacksize && actions > 0 && 0 < r < T.Rules()
      requires Goto(T, States()[|States()|-1], T.r1[r]) >= 0
      modifies this, yyss, yyvs
      ensures Valid() && yylen == 0 && yyss == old(yyss) && yyvs == old(yyvs)
      ensures var c := old(At(NewState));
        At(NewState) == c.(states := c.states + [Goto(T, c.Top(), T.r1[r])],
                           vals := c.vals + [Node(r, kids, c.nred - 1)], rules := c.rules + [r],
                           created := c.created + [RedVal(c.nred - 1)])
    {
      hide Goto, Parser.States, Parser.Values;
      PopHandle();
      Push(Goto(T, yyss[yyssp], T.r1[r]), Node(r, kids, actions - 1));
      rules, created := rules + [r], created + [RedVal(actions - 1)];
    }

    /** yyerrorlab. */
    method RaiseError()
      requires Valid()
      modifies this`yyssp, this`yylen, this`yyerrstatus, this`recovered
      ensures Valid() && yylen == 0 && yyssp == old(yyssp - yylen)
      ensures At(ErrLab1) == old(At(NewState)).(lab := ErrLab1, errstatus := 3, recovered := true)
    {
      PopHandle();
      yyerrstatus, recovered := 3, true;
    }

    /** yyreduce. */
    method ReduceBy(r: nat) returns (l: Label)
      requires T.Ranges() && Valid() && yylen == 0 && yyssp + 1 < yystacksize
      requires CanReduce(T, States(), r)
      modifies this, yyss, yyvs
      ensures Valid() && Room(l) && yyss == old(yyss) && yyvs == old(yyvs)
      ensures yylen > 0 ==> l.Return?
      ensures At(l) == DoReduce(T, env, old(At(NewState)), r)
    {
      hide Held, Goto, DoReduce, CanReduce, AfterAction, Parser.States, Parser.Values;
      Outcomes(T, env, At(NewState), r);
      var kids, outcome := RunAction(r);
      match outcome {
        case YyAbort => l := Return(1);
        case YyAccept => l := Return(0);
        case YyError =>
          RaiseError();
          l := ErrLab1;
        case Normal =>
          PushGoto(r, kids);
          l := NewState;
      }
    }

    method ReadAhead()
      requires Valid() && yylen == 0
      modifies this`yychar, this`created, this`tokensRead
      ensures Valid() && yychar.Some? && At(NewState) == ReadToken(env, old(At(NewState)))
    {
      if yychar.None? {
        var raw := Raw(env.input, tokensRead);
        yychar := Some(Token(if raw <= 0 then 0 else raw, tokensRead));
        created := created + [TokVal(tokensRead)];
        tokensRead := tokensRead + 1;
      }
    }

    method ShiftToken(t: nat)
      requires Valid() && yylen == 0 && yyssp + 1 < yystacksize && yychar.Some?
      modifies this, yyss, yyvs
      ensures Valid() && yylen == 0 && yyss == old(yyss) && yyvs == old(yyvs)
      ensures At(NewState) == DoShift(T, old(At(NewState)), t)
    {
      hide Translate, Parser.States, Parser.Values;
      if yyerrstatus > 0 {
        yyerrstatus := yyerrstatus - 1;
      }
      Push(t, Leaf(Translate(T, yychar.value.raw), yychar.value.idx));
      yychar := None;
      shifted := shifted + 1;
    }

    /** yybackup and yydefault. */
    method BackUp() returns (l: Label)
      requires ValidTables(T) && Valid() && yylen == 0 && yyssp + 1 < yystacksize
      requires Shape(T, At(NewState)) && At(NewState).Top() != T.final
      modifies this, yyss, yyvs
      ensures Valid() && Room(l) && yyss == old(yyss) && yyvs == old(yyvs)
      ensures yylen > 0 ==> l.Return?
      ensures At(l) == Backup(T, env, old(At(NewState)))
    {
      hide Path, ActionOk, Reducible, EdgesOk, FinalOk, Goto, DoReduce, DoShift;
      ChosenLegal(T, env, At(NewState));
      var s := yyss[yyssp];
      var a: Action;
      if Defaulted(T, s) {
        a := DefaultAction(T, s);
      } else {
        ReadAhead();
        a := Act(T, s, Translate(T, yychar.value.raw));
      }
      assert a == Chosen(T, env, old(At(NewState)));
      match a {
        case Error => l := ErrLab;
        case Reduce(r) => l := ReduceBy(r);
        case Shift(t) =>
          ShiftToken(t);
          l := NewState;
      }
    }

    /** yysetstate: make room for the next state, accept, or go on to yybackup. */
    method SetState() returns (l: Label)
      requires ValidTables(T) && Valid() && yylen == 0
      requires Shape(T, At(NewState))
      modifies this, yyss, yyvs
      ensures Valid() && Room(l) && (yyss == old(yyss) || fresh(yyss)) && (yyvs == old(yyvs) || fresh(yyvs))
      ensures yylen > 0 ==> l.Return?
      ensures At(l) == EnterState(T, env, old(At(NewState)))
    {
      hide Stack, Tables.Ranges, ActionOk, EdgesOk, DoShift, Chosen, DoReduce, ReadToken;
      ghost var c := At(NewState);
      if yystacksize <= yyssp + 1 {
        if env.maxDepth <= yystacksize {
          return Return(2);
        }
        Grow();
        assert At(NewState) == c.(cap := Grown(env, c.cap));
        // The source tests once more whether the stack is full; it cannot be.
        assert yyssp + 1 < yystacksize;
      }
      if yyss[yyssp] == T.final {
        return Return(0);
      }
      l := BackUp();
    }

    /** yyerrlab. */
    method ErrorDetected() returns (l: Label)
      requires T.Ranges() && Valid() && Room(ErrLab) && Shape(T, At(ErrLab))
      modifies this
      ensures Valid() && Room(l) && yylen == 0 && yyss == old(yyss) && yyvs == old(yyvs)
      ensures At(l) == ReportError(old(At(ErrLab)))
    {
      hide Shape, Tables.Ranges, Parser.States, Parser.Values;
      if yyerrstatus == 0 {
        yynerrs := yynerrs + 1;
      }
      if yyerrstatus == 3 && yychar.Some? {
        if yychar.value.raw == 0 {
          return Return(1);
        }
        released := released + [TokVal(yychar.value.idx)];
        yychar := None;
      }
      yyerrstatus, recovered := 3, true;
      l := ErrLab1;
    }

    /** One round of the loop of yyerrlab1. */
    method ErrorPop() returns (l: Label)
      requires T.Ranges() && Valid() && Room(ErrLab1) && Shape(T, At(ErrLab1))
      modifies this, yyss, yyvs
      ensures Valid() && Room(l) && yylen == 0 && yyss == old(yyss) && yyvs == old(yyvs)
      ensures At(l) == PopForError(T, old(At(ErrLab1)))
    {
      hide Stack, EdgesOk, ActionOk, Parser.States;
      var e := ErrorShift(T, yyss[yyssp]);
      if e.Some? {
        Push(e.value, ErrLeaf);
        return NewState;
      }
      if yyssp == 0 {
        return Return(1);
      }
      released := released + Owners(yyvs[yyssp]);
      PopOne();
      l := ErrLab1;
    }

    /** The loop of yyreturn: pop and destroy until only the bottom is left. */
    method PopAll()
      requires Valid() && yylen == 0
      modifies this`yyssp, this`released
      ensures Valid() && yyssp == 0
      ensures States() == old(States())[..1] && Values() == []
      ensures released == old(released) + Popped(old(Values()))
    {
      hide Popped, Owners;
      while yyssp != 0
        invariant Valid() && yyssp <= old(yyssp)
        invariant released + Popped(yyvs[1..yyssp + 1]) == old(released) + Popped(old(Values()))
      {
        ghost var v := yyvs[1..yyssp + 1];
        assert v[|v|-1] == yyvs[yyssp] && v[..|v|-1] == yyvs[1..yyssp];
        PoppedLast(v, released);
        released := released + Owners(yyvs[yyssp]);
        yyssp := yyssp - 1;
      }
      NonePopped();
    }

    /** yyreturn: destroy the lookahead, then pop and destroy what is left. */
    method CleanUp(code: nat) returns (l: Label)
      requires Valid()
      modifies this
      ensures Valid() && l == Done(code) && yylen == 0 && yyss == old(yyss) && yyvs == old(yyvs)
      ensures At(l) == Cleanup(old(At(Return(code))), code)
    {
      hide Popped, Parser.States, Parser.Values;
      if yychar.Some? {
        released := released + [TokVal(yychar.value.idx)];
        yychar := None;
      }
      PopHandle();
      PopAll();
      l := Done(code);
    }

    /** Follow the labels for at most `fuel` of them. */
    method Steps(fuel: nat) returns (l: Label)
      requires ValidTables(T) && Valid() && yylen == 0 && At(NewState) == Init(env)
      modifies this, yyss, yyvs
      ensures Valid() && At(l) == Run(T, env, Init(env), fuel)
    {
      hide Next, Shape, Init, Parser.At, ActionOk, EdgesOk, FinalOk, EndOnlyLast;
      l := NewState;
      var i := 0;
      while i < fuel
        invariant 0 <= i <= fuel && Valid() && Room(l)
        invariant yylen > 0 ==> l.Return?
        invariant At(l) == Run(T, env, Init(env), i)
        invariant (yyss == old(yyss) || fresh(yyss)) && (yyvs == old(yyvs) || fresh(yyvs))
      {
        NeverCrashes(T, env, i);
        l := Visit(l);
        i := i + 1;
      }
    }

    /** Execute the code at label l, up to the next label. */
    method Visit(l: Label) returns (l': Label)
      requires ValidTables(T) && Valid() && Room(l) && (yylen > 0 ==> l.Return?)
      requires Shape(T, At(l))
      modifies this, yyss, yyvs
      ensures Valid() && Room(l') && (yylen > 0 ==> l'.Return?)
      ensures (yyss == old(yyss) || fresh(yyss)) && (yyvs == old(yyvs) || fresh(yyvs))
      ensures At(l') == Next(T, env, old(At(l)))
    {
      match l {
        case NewState => l' := SetState();
        case ErrLab => l' := ErrorDetected();
        case ErrLab1 => l' := ErrorPop();
        case Return(code) => l' := CleanUp(code);
        case Done(_) => l' := l;
      }
    }

    /** yyparse.  It returns when the parse halts, and then it has released exactly the
        values there were, each once.  If it returns 0, and not because an action executed
        YYACCEPT, it has parsed its input. */
    method YyParse() returns (code: nat)
      requires ValidTables(T) && Halts(T, env)
      requires Valid() && yylen == 0 && At(NewState) == Init(env)
      modifies this, yyss, yyvs
      ensures Valid()
      ensures exists k :: Run(T, env, Init(env), k).lab == Done(code)
                       && Run(T, env, Init(env), k) == At(Done(code))
      ensures forall o :: Count(released, o) == Existing(env, At(Done(code)), o)
      ensures code == 0 && (forall i | 0 <= i < actions :: env.act(i).outcome != YyAccept) ==>
        exists t {:trigger ParseTree(T, env.input, t, shifted, rules, recovered)} ::
          ParseTree(T, env.input, t, shifted, rules, recovered)
    {
      hide Next, Existing, ParseTree, Shape, Tables.Ranges, Init, Stack, EdgesOk, FinalOk, ActionOk, EndOnlyLast, Act,
        Parser.States, Parser.Values;
      ghost var k: nat :| Run(T, env, Init(env), k).lab.Done?;
      var l := NewState;
      ghost var i: nat := 0;
      while !l.Done?
        invariant Valid() && Room(l) && i <= k
        invariant yylen > 0 ==> l.Return?
        invariant At(l) == Run(T, env, Init(env), i)
        invariant (yyss == old(yyss) || fresh(yyss)) && (yyvs == old(yyvs) || fresh(yyvs))
        decreases k - i
      {
        NeverCrashes(T, env, i);
        l := Visit(l);
        i := i + 1;
      }
      code := l.code;
      forall o
        ensures Count(released, o) == Existing(env, At(Done(code)), o)
      {
        ReleasedExactlyOnce(T, env, i, o);
      }
      if code == 0 && forall j | 0 <= j < actions :: env.act(j).outcome != YyAccept {
        ghost var t := ZeroParses(T, env, i);
        assert ParseTree(T, env.input, t, shifted, rules, recovered);
      }
    }
  }
}
