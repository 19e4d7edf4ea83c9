/** What the scanner is for, stated on whole texts: the automaton's runs, the longest
    match, and the sequence of tokens of a text. */
module Lexing {
  import opened ScanTables

  type Text = seq<Byte>

  const NEWLINE: Byte := 10

  /** The class of a byte of the text; a NUL that is text is an ordinary character. */
  function Class(b: Byte): nat {
    if b == 0 then 1 else Ec(b)
  }

  /** The state after reading w from START. */
  function Run(w: Text): nat {
    if w == [] then START else Step(Run(w[..|w|-1]), Class(w[|w|-1]))
  }

  /** The rule that accepts w as a whole, 0 if none does. */
  function Rule(w: Text): nat {
    YyAccept(Run(w))
  }

  datatype Match = Match(rule: nat, text: Text)

  /** The length of the longest non-empty accepted prefix of w among its first k. */
  function Longest(w: Text, k: nat): (n: nat)
    requires k <= |w|
    ensures n <= k
  {
    if k == 0 || Rule(w[..k]) != 0 then k else Longest(w, k - 1)
  }

  /** Flex's specification of the next match in w. */
  ghost predicate IsLongestMatch(w: Text, n: nat) {
    && 0 < n <= |w|
    && Rule(w[..n]) != 0
    && (forall j {:trigger w[..j]} | n < j <= |w| :: Rule(w[..j]) == 0)
  }

  /** The tokens of a text, by longest match from left to right. */
  function Tokens(w: Text): seq<Match>
    decreases |w|
  {
    if w == [] then []
    else
      var n := Longest(w, |w|);
      if n == 0 then [] else [Match(Rule(w[..n]), w[..n])] + Tokens(w[n..])
  }

  function Newlines(w: Text): nat {
    if w == [] then 0 else Newlines(w[..|w|-1]) + if w[|w|-1] == NEWLINE then 1 else 0
  }

  lemma NewlinesNext(w: Text, i: nat)
    requires i < |w|
    ensures Newlines(w[..i + 1]) == Newlines(w[..i]) + if w[i] == NEWLINE then 1 else 0
  {
    assert w[..i + 1][..i] == w[..i];
  }

  lemma NoNewlines()
    ensures Newlines([]) == 0
  {
  }

  function Concat(ms: seq<Match>): Text {
    if ms == [] then [] else ms[0].text + Concat(ms[1..])
  }

  // ---------------------------------------------------------------- runs

  lemma RunPush(w: Text, b: Byte)
    ensures Run(w + [b]) == Step(Run(w), Class(b))
  {
    assert (w + [b])[..|w|] == w;
  }

  lemma {:induction false} RunProper(w: Text)
    ensures Run(w) == JAM || Proper(Run(w))
  {
    if w != [] {
      RunProper(w[..|w|-1]);
      if Run(w[..|w|-1]) != JAM {
        WalkIsStep(Run(w[..|w|-1]), Class(w[|w|-1]));
      }
    }
  }

  lemma {:induction false} JamIsForEver(w: Text, k: nat)
    requires k <= |w| && Run(w[..k]) == JAM
    ensures Run(w) == JAM
    decreases |w|
  {
    if k < |w| {
      assert w[..|w|-1][..k] == w[..k];
      JamIsForEver(w[..|w|-1], k);
    } else {
      assert w[..k] == w;
    }
  }

  /** After a jam, and after a state without transitions, nothing longer is accepted. */
  lemma NothingLonger(w: Text, n: nat, j: nat)
    requires n < j <= |w|
    requires Run(w[..n]) == JAM || YyBase(Run(w[..n])) == YyBase(JAM)
    ensures Rule(w[..j]) == 0
  {
    RunProper(w[..n]);
    if Run(w[..n]) != JAM {
      NoWayOn(Run(w[..n]), Class(w[n]));
      RunPush(w[..n], w[n]);
      assert w[..n] + [w[n]] == w[..n+1];
      assert w[..j][..n+1] == w[..n+1];
      JamIsForEver(w[..j], n + 1);
    } else {
      assert w[..j][..n] == w[..n];
      JamIsForEver(w[..j], n);
    }
  }

  /** Every single byte is accepted by some rule. */
  lemma OneByteMatches(w: Text)
    requires |w| == 1
    ensures Rule(w) != 0
  {
    assert w == [] + [w[0]];
    RunPush([], w[0]);
  }

  // ---------------------------------------------------------------- the longest match

  lemma {:induction false} LongestIs(w: Text, k: nat)
    requires k <= |w|
    ensures Longest(w, k) > 0 ==> Rule(w[..Longest(w, k)]) != 0
    ensures forall j {:trigger w[..j]} | Longest(w, k) < j <= k :: Rule(w[..j]) == 0
  {
    if k > 0 {
      LongestIs(w, k - 1);
    }
  }

  /** On a non-empty text there is a longest match, and Longest finds it. */
  lemma LongestMatches(w: Text)
    requires w != []
    ensures IsLongestMatch(w, Longest(w, |w|))
  {
    LongestIs(w, |w|);
    OneByteMatches(w[..1]);
  }

  lemma LongestUnique(w: Text, n: nat)
    requires IsLongestMatch(w, n)
    ensures n == Longest(w, |w|)
  {
    LongestIs(w, |w|);
    assert Rule(w[..n]) != 0;
  }

  lemma TokensUnfold(w: Text, n: nat)
    requires w != [] && IsLongestMatch(w, n)
    ensures Tokens(w) == [Match(Rule(w[..n]), w[..n])] + Tokens(w[n..])
  {
    hide Rule, Longest;
    LongestUnique(w, n);
  }

  // ---------------------------------------------------------------- properties of the tokens

  /** Lossless: the matched texts, put together, are the input. */
  lemma {:induction false} TokensAreLossless(w: Text)
    ensures Concat(Tokens(w)) == w
    decreases |w|
  {
    hide Rule, Longest, IsLongestMatch;
    if w != [] {
      var n := Longest(w, |w|);
      LongestMatches(w);
      TokensUnfold(w, n);
      TokensAreLossless(w[n..]);
      assert Tokens(w)[1..] == Tokens(w[n..]);
      assert w == w[..n] + w[n..];
    }
  }

  // ---------------------------------------------------------------- newlines

  /** The states a text with a newline in it can lead to. */
  predicate AfterNewline(s: nat) {
    s in {6, 11, 20, 21, 26, 27, 30, 31, JAM}
  }

  lemma {:induction false} NewlineStates(w: Text)
    requires Newlines(w) > 0
    ensures AfterNewline(Run(w))
  {
    var v, b := w[..|w|-1], w[|w|-1];
    RunProper(v);
    if Newlines(v) > 0 {
      NewlineStates(v);
    }
  }

  /** Only rules 1 and 7 match texts with a newline: counting newlines in the texts of
      just these rules, as the scanner does, misses none. */
  lemma OnlySomeRulesMatchNewlines(w: Text)
    requires Rule(w) != 0 && Newlines(w) > 0
    ensures Rule(w) in YY_RULE_CAN_MATCH_EOL
  {
    NewlineStates(w);
  }
}
