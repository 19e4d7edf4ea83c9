/** The automaton accepts by a rule exactly the texts that Flex gives to this rule: those its
    pattern matches and no earlier one.  What the tables know only as state numbers is
    followed here by what the text read so far looks like. */
module LexRules {
  import opened ScanTables
  import opened Patterns
  import opened Lexing

  /** A slash, and not both ends of a comment. */
  ghost predicate Opened(w: Text) {
    |w| >= 2 && w[0] == SLASH && w[1] == STAR && NoEnd(w, 2, |w|)
  }

  // ---------------------------------------------------------------- by the first byte

  /** Texts that start with a bracket. */
  ghost predicate InBrackets(w: Text) {
    InNames(w) && InNumbers(w) && InRanges(w) && Run(w) in {10, 17, 18, 19, 24, 25, 29, 32, JAM}
  }

  ghost predicate InNames(w: Text) {
    && (Run(w) == 10 <==> |w| == 1)
    && (Run(w) == 18 <==> |w| > 1 && Between(Letter, w, 1, |w|))
    && (Run(w) == 19 <==> Looks(w, 4))
  }

  ghost predicate InNumbers(w: Text) {
    && (Run(w) == 17 <==> |w| > 1 && Between(Digit, w, 1, |w|))
    && (Run(w) == 25 <==> Looks(w, 3))
  }

  ghost predicate InRanges(w: Text) {
    && (Run(w) == 24 <==> |w| > 2 && w[|w|-1] == 45 && Between(Digit, w, 1, |w| - 1))
    && (Run(w) == 29 <==> exists k :: RangeOpen(w, k))
    && (Run(w) == 32 <==> Looks(w, 5))
  }

  ghost predicate RangeOpen(w: Text, k: int) {
    && 1 < k < |w| - 1 && w[k] == 45 && Between(Digit, w, 1, k) && Between(Digit, w, k + 1, |w|)
  }

  /** Texts that start with a letter or a digit. */
  ghost predicate InWords(w: Text) {
    && (Run(w) in {9, 15} <==> Between(Wordy, w, 0, |w|))
    && (Run(w) == 14 <==> exists k :: Blank(w, k))
    && (Run(w) == 16 <==> Looks(w, 6))
    && Run(w) in {9, 14, 15, 16, JAM}
    && (Run(w) == 9 <==> |w| == 1)
  }

  ghost predicate Blank(w: Text, k: int) {
    0 < k < |w| && Between(Wordy, w, 0, k) && Between(Space, w, k, |w|)
  }

  /** Texts that start with a slash. */
  ghost predicate InComments(w: Text) {
    InLine(w) && InBlock(w) && Run(w) in {8, 12, 13, 20, 21, 22, 23, 26, 27, 28, 30, 31, JAM}
  }

  ghost predicate InLine(w: Text) {
    (Run(w) == 8 <==> |w| == 1) && (Run(w) in {13, 22, 23, 28} <==> Looks(w, 2))
  }

  ghost predicate InBlock(w: Text) {
    && (Run(w) in {12, 20, 26, 30} <==> Opened(w) && (|w| == 2 || w[|w|-1] != STAR))
    && (Run(w) in {21, 31} <==> Opened(w) && |w| > 2 && w[|w|-1] == STAR)
    && (Run(w) == 27 <==> Looks(w, 1))
  }

  lemma FirstByte(w: Text)
    requires |w| == 1
    ensures Run(w) == Step(START, Class(w[0]))
  {
    RunPush([], w[0]);
    assert w == [] + [w[0]];
  }

  lemma LastByte(w: Text)
    requires w != []
    ensures Run(w) == Step(Run(w[..|w|-1]), Class(w[|w|-1]))
  {
  }

  lemma {:induction false} BracketRun(w: Text)
    requires w != [] && w[0] == 91
    ensures InBrackets(w)
  {
    if |w| == 1 {
      FirstByte(w);
    } else {
      BracketRun(w[..|w|-1]);
      OneMoreInBrackets(w);
    }
  }

  lemma OneMoreInBrackets(w: Text)
    requires |w| > 1 && w[0] == 91 && InBrackets(w[..|w|-1])
    ensures InBrackets(w)
  {
    hide InNames, InNumbers, InRanges, Run;
    LastByte(w);
    NamesNext(w);
    NumbersNext(w);
    RangesNext(w);
  }

  lemma NamesNext(w: Text)
    requires |w| > 1 && w[0] == 91 && InBrackets(w[..|w|-1])
    ensures InNames(w)
  {
    hide Run, InNumbers, InRanges;
    LastByte(w);
  }

  lemma NumbersNext(w: Text)
    requires |w| > 1 && w[0] == 91 && InBrackets(w[..|w|-1])
    ensures InNumbers(w)
  {
    hide Run, InRanges;
    LastByte(w);
  }

  lemma RangesNext(w: Text)
    requires |w| > 1 && w[0] == 91 && InBrackets(w[..|w|-1])
    ensures InRanges(w)
  {
    hide Run, InNames, Looks, RangeOpen;
    LastByte(w);
    RangeGrows(w);
    RangeCloses(w);
  }

  /** A hyphen that is followed by one more digit. */
  lemma RangeGrows(w: Text)
    requires |w| > 1
    ensures var v, b := w[..|w|-1], w[|w|-1];
      (exists k :: RangeOpen(w, k)) <==>
        Digit(b) && ((|v| > 2 && v[|v|-1] == 45 && Between(Digit, v, 1, |v| - 1)) || exists k :: RangeOpen(v, k))
  {
    var v, b := w[..|w|-1], w[|w|-1];
    if k :| RangeOpen(w, k) {
      if k < |w| - 2 {
        assert RangeOpen(v, k);
      }
      assert Digit(w[|w|-1]);
    }
    if Digit(b) {
      if |v| > 2 && v[|v|-1] == 45 && Between(Digit, v, 1, |v| - 1) {
        assert RangeOpen(w, |v| - 1);
      }
      if k :| RangeOpen(v, k) {
        assert RangeOpen(w, k);
      }
    }
  }

  lemma RangeCloses(w: Text)
    requires |w| > 1 && w[0] == 91
    ensures var v, b := w[..|w|-1], w[|w|-1]; Looks(w, 5) <==> b == 93 && exists k :: RangeOpen(v, k)
  {
    var v := w[..|w|-1];
    if k :| Ranged(w, k) {
      assert RangeOpen(v, k);
    }
    if w[|w|-1] == 93 {
      if k :| RangeOpen(v, k) {
        assert Ranged(w, k);
      }
    }
  }

  lemma {:induction false} WordRun(w: Text)
    requires w != [] && Wordy(w[0])
    ensures InWords(w)
  {
    if |w| == 1 {
      FirstByte(w);
    } else {
      WordRun(w[..|w|-1]);
      OneMoreInWords(w);
    }
  }

  lemma OneMoreInWords(w: Text)
    requires |w| > 1 && Wordy(w[0]) && InWords(w[..|w|-1])
    ensures InWords(w)
  {
    var v, b := w[..|w|-1], w[|w|-1];
    LastByte(w);
    BlankGrows(w);
    NameCloses(w);
  }

  lemma BlankGrows(w: Text)
    requires |w| > 1
    ensures var v, b := w[..|w|-1], w[|w|-1];
      (exists k :: Blank(w, k)) <==> Space(b) && (Between(Wordy, v, 0, |v|) || exists k :: Blank(v, k))
  {
    var v, b := w[..|w|-1], w[|w|-1];
    if k :| Blank(w, k) {
      if k < |v| {
        assert Blank(v, k);
      }
      assert Space(w[|w|-1]);
    }
    if Space(b) {
      if Between(Wordy, v, 0, |v|) {
        assert Blank(w, |v|);
      }
      if k :| Blank(v, k) {
        assert Blank(w, k);
      }
    }
  }

  lemma NameCloses(w: Text)
    requires |w| > 1
    ensures var v, b := w[..|w|-1], w[|w|-1];
      Looks(w, 6) <==> b == 59 && (Between(Wordy, v, 0, |v|) || exists k :: Blank(v, k))
  {
    var v, b := w[..|w|-1], w[|w|-1];
    if k :| Named(w, k) {
      if k < |v| {
        assert Blank(v, k);
      }
    }
    if b == 59 {
      if Between(Wordy, v, 0, |v|) {
        assert Named(w, |v|);
      }
      if k :| Blank(v, k) {
        assert Named(w, k);
      }
    }
  }

  lemma {:induction false} SlashRun(w: Text)
    requires w != [] && w[0] == SLASH
    ensures InComments(w)
  {
    if |w| == 1 {
      FirstByte(w);
    } else {
      SlashRun(w[..|w|-1]);
      OneMoreInComments(w);
    }
  }

  lemma OneMoreInComments(w: Text)
    requires |w| > 1 && w[0] == SLASH && InComments(w[..|w|-1])
    ensures InComments(w)
  {
    hide InLine, InBlock, Run;
    LastByte(w);
    LineNext(w);
    BlockNext(w);
  }

  lemma LineNext(w: Text)
    requires |w| > 1 && w[0] == SLASH && InComments(w[..|w|-1])
    ensures InLine(w)
  {
    hide Run, InBlock;
    LastByte(w);
  }

  lemma BlockNext(w: Text)
    requires |w| > 1 && w[0] == SLASH && InComments(w[..|w|-1])
    ensures InBlock(w)
  {
    hide Run;
    LastByte(w);
  }

  /** Texts that start with anything else are matched one by one, but for the two bytes of a
      line end. */
  lemma {:induction false} OtherRun(w: Text)
    requires w != [] && w[0] != 91 && w[0] != SLASH && !Wordy(w[0])
    ensures |w| == 1 ==> Run(w) == (if w[0] == 10 then 6 else if w[0] == 13 then 7 else
      if w[0] == 32 || w[0] == 9 then 5 else 4)
    ensures |w| > 1 ==> Run(w) == if w == [13, 10] then 11 else JAM
  {
    if |w| == 1 {
      FirstByte(w);
    } else {
      OtherRun(w[..|w|-1]);
      LastByte(w);
    }
  }

  // ---------------------------------------------------------------- the rules

  /** The first rule in the order of the patterns that w looks like. */
  ghost predicate LooksFirst(w: Text, r: nat) {
    1 <= r <= 9 && Looks(w, r) && forall q {:trigger Looks(w, q)} | 1 <= q < r :: !Looks(w, q)
  }

  lemma BracketRule(w: Text, r: nat)
    requires w != [] && w[0] == 91
    ensures Rule(w) == r > 0 <==> LooksFirst(w, r)
  {
    hide Run;
    BracketLooks(w);
    BracketRun(w);
    if |w| == 1 {
      assert Rule(w) == 9 && LooksFirst(w, 9);
    } else if Looks(w, 3) {
      assert Rule(w) == 3 && LooksFirst(w, 3);
    } else if Looks(w, 4) {
      assert Rule(w) == 4 && LooksFirst(w, 4);
    } else if Looks(w, 5) {
      assert Rule(w) == 5 && LooksFirst(w, 5);
    } else {
      assert Rule(w) == 0;
    }
    OnlyFirst(w, Rule(w), r);
  }

  lemma BracketLooks(w: Text)
    requires w != [] && w[0] == 91
    ensures forall q {:trigger Looks(w, q)} | q == 1 || q == 2 || 6 <= q <= 8 :: !Looks(w, q)
    ensures Looks(w, 9) <==> |w| == 1
    ensures |w| == 1 ==> !Looks(w, 3) && !Looks(w, 4) && !Looks(w, 5)
    ensures !(Looks(w, 3) && Looks(w, 4)) && !(Looks(w, 3) && Looks(w, 5)) && !(Looks(w, 4) && Looks(w, 5))
  {
    assert forall k :: !Named(w, k);
    assert |w| > 2 && Looks(w, 3) ==> Digit(w[1]);
    assert |w| > 2 && Looks(w, 4) ==> Letter(w[1]);
    forall k | Ranged(w, k)
      ensures !Looks(w, 3) && !Looks(w, 4)
    {
      assert !Digit(w[k]) && !Letter(w[k]);
    }
  }

  lemma WordRule(w: Text, r: nat)
    requires w != [] && Wordy(w[0])
    ensures Rule(w) == r > 0 <==> LooksFirst(w, r)
  {
    hide Run;
    WordLooks(w);
    WordRun(w);
    if |w| == 1 {
      assert Rule(w) == 9 && LooksFirst(w, 9);
    } else if Looks(w, 6) {
      assert Rule(w) == 6 && LooksFirst(w, 6);
    } else {
      assert Rule(w) == 0;
    }
    OnlyFirst(w, Rule(w), r);
  }

  lemma WordLooks(w: Text)
    requires w != [] && Wordy(w[0])
    ensures forall q {:trigger Looks(w, q)} | 1 <= q <= 5 || q == 7 || q == 8 :: !Looks(w, q)
    ensures Looks(w, 9) <==> |w| == 1
    ensures |w| == 1 ==> !Looks(w, 6)
  {
    assert forall k :: !Ranged(w, k);
    assert |w| == 1 ==> forall k :: !Named(w, k);
  }

  lemma SlashRule(w: Text, r: nat)
    requires w != [] && w[0] == SLASH
    ensures Rule(w) == r > 0 <==> LooksFirst(w, r)
  {
    hide Run;
    SlashLooks(w);
    SlashRun(w);
    if Looks(w, 1) {
      assert Rule(w) == 1 && LooksFirst(w, 1);
    } else if Looks(w, 2) {
      assert Rule(w) == 2 && LooksFirst(w, 2);
    } else if |w| == 1 {
      assert Rule(w) == 9 && LooksFirst(w, 9);
    } else {
      assert Rule(w) == 0;
    }
    OnlyFirst(w, Rule(w), r);
  }

  lemma SlashLooks(w: Text)
    requires w != [] && w[0] == SLASH
    ensures forall q {:trigger Looks(w, q)} | 3 <= q <= 8 :: !Looks(w, q)
    ensures Looks(w, 9) <==> |w| == 1
    ensures !(Looks(w, 1) && Looks(w, 2)) && (|w| == 1 ==> !Looks(w, 1) && !Looks(w, 2))
  {
    assert forall k :: !Ranged(w, k) && !Named(w, k);
  }

  lemma OnlyFirst(w: Text, s: nat, r: nat)
    requires if s > 0 then LooksFirst(w, s) else forall q {:trigger Looks(w, q)} | 1 <= q <= 9 :: !Looks(w, q)
    ensures s == r > 0 <==> LooksFirst(w, r)
  {
    hide Looks;
  }

  lemma OtherRule(w: Text, r: nat)
    requires w != [] && w[0] != 91 && w[0] != SLASH && !Wordy(w[0])
    ensures Rule(w) == r > 0 <==> LooksFirst(w, r)
  {
    hide Run;
    OtherLooks(w);
    OtherRun(w);
    if Looks(w, 7) {
      assert Rule(w) == 7 && LooksFirst(w, 7);
    } else if Looks(w, 8) {
      assert Rule(w) == 8 && LooksFirst(w, 8);
    } else if |w| == 1 {
      assert Rule(w) == 9 && LooksFirst(w, 9);
    } else {
      assert Rule(w) == 0;
    }
    OnlyFirst(w, Rule(w), r);
  }

  lemma OtherLooks(w: Text)
    requires w != [] && w[0] != 91 && w[0] != SLASH && !Wordy(w[0])
    ensures forall q {:trigger Looks(w, q)} | 1 <= q <= 6 :: !Looks(w, q)
    ensures Looks(w, 9) <==> |w| == 1
  {
    assert forall k :: !Ranged(w, k) && !Named(w, k);
  }

  /** The automaton accepts w by rule r if and only if r is the first rule whose pattern
      matches w. */
  lemma RuleIsFirstMatch(w: Text, r: nat)
    ensures Rule(w) == r > 0 <==> ByRule(w, r)
  {
    hide Matches, Looks, Rule;
    if w == [] {
      EmptyText(r);
    } else {
      if w[0] == 91 {
        BracketRule(w, r);
      } else if Wordy(w[0]) {
        WordRule(w, r);
      } else if w[0] == SLASH {
        SlashRule(w, r);
      } else {
        OtherRule(w, r);
      }
      forall q {:trigger Looks(w, q)} {:trigger Pattern(q)} | 1 <= q <= 9
        ensures Matches(Pattern(q), w) <==> Looks(w, q)
      {
        PatternsLook(w, q);
      }
    }
  }

  lemma EmptyText(r: nat)
    ensures Rule([]) == 0 && !ByRule([], r)
  {
    hide Matches;
    if 1 <= r <= 9 {
      PatternsLook([], r);
    }
  }

  // ---------------------------------------------------------------- the tokens, by their patterns

  /** Flex's next match in w: n bytes by rule r, and no pattern matches more. */
  ghost predicate FlexMatch(w: Text, n: nat, r: nat) {
    && 0 < n <= |w| && ByRule(w[..n], r)
    && forall j, q {:trigger ByRule(w[..j], q)} | n < j <= |w| :: !ByRule(w[..j], q)
  }

  lemma LongestIsFlexMatch(w: Text, n: nat)
    requires IsLongestMatch(w, n)
    ensures FlexMatch(w, n, Rule(w[..n]))
  {
    hide ByRule, Rule;
    RuleIsFirstMatch(w[..n], Rule(w[..n]));
    forall j, q {:trigger ByRule(w[..j], q)} | n < j <= |w|
      ensures !ByRule(w[..j], q)
    {
      if q >= 0 {
        assert Rule(w[..j]) == 0;
        RuleIsFirstMatch(w[..j], q);
      }
    }
  }

  /** Only one rule and one length will do. */
  lemma FlexMatchUnique(w: Text, n: nat, r: nat, n': nat, r': nat)
    requires FlexMatch(w, n, r) && FlexMatch(w, n', r')
    ensures n == n' && r == r'
  {
    hide Matches;
  }

  /** The matches cut w up, one after the other, as Flex says. */
  ghost predicate FlexTokens(w: Text, ms: seq<Match>)
    decreases |ms|
  {
    if ms == [] then w == []
    else
      && FlexMatch(w, |ms[0].text|, ms[0].rule) && ms[0].text == w[..|ms[0].text|]
      && FlexTokens(w[|ms[0].text|..], ms[1..])
  }

  /** The tokens of a text are those that the patterns give it. */
  lemma {:induction false} TokensAreFlexTokens(w: Text)
    ensures FlexTokens(w, Tokens(w))
    decreases |w|
  {
    hide Rule, Longest, IsLongestMatch, FlexMatch;
    if w != [] {
      var n := Longest(w, |w|);
      LongestMatches(w);
      LongestPositive(w, n);
      TokensUnfold(w, n);
      LongestIsFlexMatch(w, n);
      TokensAreFlexTokens(w[n..]);
      assert Tokens(w)[1..] == Tokens(w[n..]);
      assert |w[..n]| == n;
    }
  }

  lemma LongestPositive(w: Text, n: nat)
    requires IsLongestMatch(w, n)
    ensures 0 < n <= |w|
  {
  }

  /** And no other sequence of matches. */
  lemma {:induction false} FlexTokensUnique(w: Text, ms: seq<Match>, ms': seq<Match>)
    requires FlexTokens(w, ms) && FlexTokens(w, ms')
    ensures ms == ms'
    decreases |ms|
  {
    hide ByRule;
    if ms != [] && ms' != [] {
      FlexMatchUnique(w, |ms[0].text|, ms[0].rule, |ms'[0].text|, ms'[0].rule);
      FlexTokensUnique(w[|ms[0].text|..], ms[1..], ms'[1..]);
      assert ms == [ms[0]] + ms[1..] && ms' == [ms'[0]] + ms'[1..];
    } else if ms != ms' {
      NothingToMatch(w, if ms != [] then ms else ms');
    }
  }

  lemma NothingToMatch(w: Text, ms: seq<Match>)
    requires FlexTokens(w, ms) && ms != []
    ensures w != []
  {
  }

  /** Where the i-th match starts in the input. */
  function Offset(ms: seq<Match>, i: nat): nat
    requires i <= |ms|
  {
    if i == 0 then 0 else |ms[0].text| + Offset(ms[1..], i - 1)
  }

  /** m is Flex's match at position o of w. */
  ghost predicate MatchAt(w: Text, o: nat, m: Match) {
    && o + |m.text| <= |w|
    && m.text == w[o..o+|m.text|]
    && FlexMatch(w[o..], |m.text|, m.rule)
  }

  lemma MatchAtLater(w: Text, n: nat, o: nat, m: Match)
    requires n <= |w| && MatchAt(w[n..], o, m)
    ensures MatchAt(w, n + o, m)
  {
    hide FlexMatch;
    assert w[n..][o..] == w[n+o..];
    assert w[n..][o..o+|m.text|] == w[n+o..n+o+|m.text|];
  }

  /** Every token is Flex's match at its place in the input. */
  lemma {:induction false} TokensAreLongest(w: Text, i: nat)
    requires i < |Tokens(w)|
    ensures MatchAt(w, Offset(Tokens(w), i), Tokens(w)[i])
    decreases |w|
  {
    hide Rule, Longest, IsLongestMatch, MatchAt, Tokens, Offset;
    SomeToken(w);
    var n := Longest(w, |w|);
    LongestMatches(w);
    TokensUnfold(w, n);
    OffsetNext(Tokens(w), i);
    if i == 0 {
      FirstMatch(w, n);
    } else {
      assert Tokens(w)[1..] == Tokens(w[n..]);
      TokensAreLongest(w[n..], i - 1);
      MatchAtLater(w, n, Offset(Tokens(w[n..]), i - 1), Tokens(w)[i]);
    }
  }

  lemma SomeToken(w: Text)
    requires Tokens(w) != []
    ensures w != []
  {
  }

  lemma OffsetNext(ms: seq<Match>, i: nat)
    requires i < |ms|
    ensures Offset(ms, i) == if i == 0 then 0 else |ms[0].text| + Offset(ms[1..], i - 1)
  {
  }

  lemma FirstMatch(w: Text, n: nat)
    requires IsLongestMatch(w, n)
    ensures MatchAt(w, 0, Match(Rule(w[..n]), w[..n]))
  {
    hide ByRule, Rule;
    LongestIsFlexMatch(w, n);
    assert w[0..] == w;
  }
}
