/** The patterns of the scanner's rules as regular expressions, and the texts they match. */
module Patterns {
  import opened ScanTables

  datatype Regex =
    | Chars(has: Byte -> bool)
    | Cat(first: Regex, second: Regex)
    | Alt(left: Regex, right: Regex)
    | Star(inner: Regex)

  ghost predicate Matches(re: Regex, w: seq<Byte>)
    decreases re, |w|
  {
    match re
    case Chars(has) => |w| == 1 && has(w[0])
    case Cat(a, b) => exists k {:trigger w[..k]} | 0 <= k <= |w| :: Matches(a, w[..k]) && Matches(b, w[k..])
    case Alt(a, b) => Matches(a, w) || Matches(b, w)
    case Star(a) =>
      w == [] || exists k {:trigger w[..k]} | 0 < k <= |w| :: Matches(a, w[..k]) && Matches(re, w[k..])
  }

  function Plus(re: Regex): Regex { Cat(re, Star(re)) }

  function Is(c: char): Regex
    requires c as int < 256
  {
    Chars(b => b == c as int)
  }

  predicate Digit(b: Byte) { 48 <= b <= 57 }

  predicate Letter(b: Byte) { 65 <= b <= 90 || b == 95 || 97 <= b <= 122 }

  predicate Wordy(b: Byte) { Letter(b) || Digit(b) }

  predicate NoStar(b: Byte) { b != STAR }

  predicate NoStarNorSlash(b: Byte) { b != STAR && b != SLASH }

  predicate NoNewline(b: Byte) { b != NL }

  predicate Anything(b: Byte) { true }

  const STAR: Byte := 42
  const SLASH: Byte := 47
  const NL: Byte := 10

  // [^*]*, "*"+ and ([^/*][^*]*\*+)*, the parts of a comment between its first two bytes and
  // its last
  function Plain(): Regex { Star(Chars(NoStar)) }

  function Stars(): Regex { Plus(Is('*')) }

  function Section(): Regex { Cat(Chars(NoStarNorSlash), Cat(Plain(), Stars())) }

  /** The patterns of lex.l, in the order in which Flex tries them; the last is the default. */
  function Pattern(r: nat): Regex
    requires 1 <= r <= 9
  {
    match r
    case 1 => Cat(Cat(Is('/'), Is('*')), Cat(Cat(Cat(Plain(), Stars()), Star(Section())), Is('/')))
    case 2 => Cat(Plus(Cat(Is('/'), Is('/'))), Star(Chars(NoNewline)))
    case 3 => Cat(Is('['), Cat(Plus(Chars(Digit)), Is(']')))
    case 4 => Cat(Is('['), Cat(Star(Chars(Letter)), Is(']')))
    case 5 => Cat(Is('['), Cat(Plus(Chars(Digit)), Cat(Is('-'), Cat(Plus(Chars(Digit)), Is(']')))))
    case 6 => Cat(Plus(Chars(Wordy)), Cat(Star(Is(' ')), Is(';')))
    case 7 => Alt(Is('\n'), Cat(Is('\r'), Is('\n')))
    case 8 => Alt(Is(' '), Is('\t'))
    case _ => Chars(Anything)
  }

  /** Flex's choice: r is the first rule whose pattern matches all of w. */
  ghost predicate ByRule(w: seq<Byte>, r: nat) {
    && 1 <= r <= 9 && Matches(Pattern(r), w)
    && forall q {:trigger Pattern(q)} | 1 <= q < r :: !Matches(Pattern(q), w)
  }

  // ---------------------------------------------------------------- what the pieces match

  ghost predicate All(has: Byte -> bool, w: seq<Byte>) {
    forall i {:trigger w[i]} | 0 <= i < |w| :: has(w[i])
  }

  lemma CatIs(a: Regex, b: Regex, u: seq<Byte>, v: seq<Byte>)
    requires Matches(a, u) && Matches(b, v)
    ensures Matches(Cat(a, b), u + v)
  {
    var w := u + v;
    assert w[..|u|] == u && w[|u|..] == v;
  }

  lemma CatSplit(a: Regex, b: Regex, w: seq<Byte>) returns (u: seq<Byte>, v: seq<Byte>)
    requires Matches(Cat(a, b), w)
    ensures w == u + v && Matches(a, u) && Matches(b, v)
  {
    var k :| 0 <= k <= |w| && Matches(a, w[..k]) && Matches(b, w[k..]);
    u, v := w[..k], w[k..];
  }

  lemma {:induction false} StarOfChars(has: Byte -> bool, w: seq<Byte>)
    ensures Matches(Star(Chars(has)), w) <==> All(has, w)
    decreases |w|
  {
    var re := Star(Chars(has));
    if w != [] {
      StarOfChars(has, w[1..]);
      if Matches(re, w) {
        var k :| 0 < k <= |w| && Matches(Chars(has), w[..k]) && Matches(re, w[k..]);
        assert k == 1 && w[..1][0] == w[0];
        assert forall i {:trigger w[i]} | 0 < i < |w| :: w[i] == w[1..][i - 1];
      }
      if All(has, w) {
        assert forall i {:trigger w[1..][i]} | 0 <= i < |w| - 1 :: w[1..][i] == w[i + 1];
        assert w[..1] == [w[0]] && Matches(Chars(has), w[..1]) && Matches(re, w[1..]);
      }
    }
  }

  lemma PlusOfChars(has: Byte -> bool, w: seq<Byte>)
    ensures Matches(Plus(Chars(has)), w) <==> w != [] && All(has, w)
  {
    var a, s := Chars(has), Star(Chars(has));
    if Matches(Plus(a), w) {
      var u, v := CatSplit(a, s, w);
      StarOfChars(has, v);
    }
    if w != [] && All(has, w) {
      StarOfChars(has, w[1..]);
      assert forall i {:trigger w[1..][i]} | 0 <= i < |w| - 1 :: w[1..][i] == w[i + 1];
      CatIs(a, s, w[..1], w[1..]);
      assert w == w[..1] + w[1..];
    }
  }

  lemma IsChar(c: char, w: seq<Byte>)
    requires c as int < 256
    ensures Matches(Is(c), w) <==> w == [c as int]
  {
  }

  /** One more at the end. */
  lemma {:induction false} StarPush(a: Regex, u: seq<Byte>, v: seq<Byte>)
    requires Matches(Star(a), u) && Matches(a, v) && v != []
    ensures Matches(Star(a), u + v)
    decreases |u|
  {
    var re := Star(a);
    if u == [] {
      assert u + v == v && v[..|v|] == v && v[|v|..] == [];
    } else {
      var k :| 0 < k <= |u| && Matches(a, u[..k]) && Matches(re, u[k..]);
      StarPush(a, u[k..], v);
      assert (u + v)[..k] == u[..k] && (u + v)[k..] == u[k..] + v;
    }
  }

  // ---------------------------------------------------------------- the same texts, place by place

  ghost predicate Between(has: Byte -> bool, w: seq<Byte>, i: int, j: int)
    requires 0 <= i && j <= |w|
  {
    forall k {:trigger w[k]} | i <= k < j :: has(w[k])
  }

  predicate Space(b: Byte) { b == 32 }

  ghost predicate Bracketed(w: seq<Byte>) { |w| >= 2 && w[0] == 91 && w[|w|-1] == 93 }

  /** The byte at k is a hyphen with a number before and one after it. */
  ghost predicate Ranged(w: seq<Byte>, k: int) {
    && Bracketed(w) && 1 < k < |w| - 2 && w[k] == 45
    && Between(Digit, w, 1, k) && Between(Digit, w, k + 1, |w| - 1)
  }

  /** Letters and digits up to k, blanks behind them, and a semicolon. */
  ghost predicate Named(w: seq<Byte>, k: int) {
    0 < k < |w| && w[|w|-1] == 59 && Between(Wordy, w, 0, k) && Between(Space, w, k, |w| - 1)
  }

  /** No comment ends before place n. */
  ghost predicate NoEnd(w: seq<Byte>, i: int, n: int)
    requires 0 <= i && n <= |w|
  {
    forall k {:trigger w[k]} | i <= k < n - 1 :: !(w[k] == STAR && w[k + 1] == SLASH)
  }

  /** What the pattern of rule r looks like. */
  ghost predicate Looks(w: seq<Byte>, r: nat)
    requires 1 <= r <= 9
  {
    match r
    case 1 =>
      && |w| >= 4 && w[0] == SLASH && w[1] == STAR && w[|w|-2] == STAR && w[|w|-1] == SLASH
      && NoEnd(w, 2, |w| - 1)
    case 2 => |w| >= 2 && w[0] == SLASH && w[1] == SLASH && Between(NoNewline, w, 2, |w|)
    case 3 => Bracketed(w) && |w| > 2 && Between(Digit, w, 1, |w| - 1)
    case 4 => Bracketed(w) && Between(Letter, w, 1, |w| - 1)
    case 5 => exists k :: Ranged(w, k)
    case 6 => exists k :: Named(w, k)
    case 7 => w == [10] || w == [13, 10]
    case 8 => w == [32] || w == [9]
    case _ => |w| == 1
  }

  lemma AllOf(has: Byte -> bool, w: seq<Byte>, i: nat, j: nat)
    requires i <= j <= |w|
    ensures All(has, w[i..j]) <==> Between(has, w, i, j)
  {
    assert forall k {:trigger w[k]} | i <= k < j :: w[k] == w[i..j][k - i];
    assert forall k {:trigger w[i..j][k]} | 0 <= k < j - i :: w[i..j][k] == w[i + k];
  }

  lemma Middle(u: seq<Byte>, x: seq<Byte>, y: seq<Byte>)
    requires |u| == |y| == 1
    ensures var w := u + (x + y);
      w[0] == u[0] && w[|w|-1] == y[0] && w[1..|w|-1] == x
  {
    var w := u + (x + y);
    assert w[1..|w|-1] == x;
  }

  /** A character, something, and a character. */
  lemma Enclosed(c: char, re: Regex, d: char, w: seq<Byte>)
    requires c as int < 256 && d as int < 256
    ensures Matches(Cat(Is(c), Cat(re, Is(d))), w) <==>
      |w| >= 2 && w[0] == c as int && w[|w|-1] == d as int && Matches(re, w[1..|w|-1])
  {
    hide Matches;
    if Matches(Cat(Is(c), Cat(re, Is(d))), w) {
      var u, v := CatSplit(Is(c), Cat(re, Is(d)), w);
      var x, y := CatSplit(re, Is(d), v);
      IsChar(c, u);
      IsChar(d, y);
      Middle(u, x, y);
    }
    if |w| >= 2 && w[0] == c as int && w[|w|-1] == d as int && Matches(re, w[1..|w|-1]) {
      var u, x, y := w[..1], w[1..|w|-1], w[|w|-1..];
      IsChar(c, u);
      IsChar(d, y);
      CatIs(re, Is(d), x, y);
      CatIs(Is(c), Cat(re, Is(d)), u, x + y);
      assert w == u + (x + y);
    }
  }

  lemma NumberPattern(w: seq<Byte>)
    ensures Matches(Pattern(3), w) <==> Looks(w, 3)
  {
    hide Matches;
    Enclosed('[', Plus(Chars(Digit)), ']', w);
    if |w| >= 2 {
      PlusOfChars(Digit, w[1..|w|-1]);
      AllOf(Digit, w, 1, |w| - 1);
    }
  }

  lemma NamePattern(w: seq<Byte>)
    ensures Matches(Pattern(4), w) <==> Looks(w, 4)
  {
    hide Matches;
    Enclosed('[', Star(Chars(Letter)), ']', w);
    if |w| >= 2 {
      StarOfChars(Letter, w[1..|w|-1]);
      AllOf(Letter, w, 1, |w| - 1);
    }
  }

  lemma RangePattern(w: seq<Byte>)
    ensures Matches(Pattern(5), w) <==> Looks(w, 5)
  {
    hide Matches, Ranged;
    if Matches(Pattern(5), w) {
      RangeIsRanged(w);
    }
    if Looks(w, 5) {
      var k :| Ranged(w, k);
      RangedIsRange(w, k);
    }
  }

  lemma RangeIsRanged(w: seq<Byte>)
    requires Matches(Pattern(5), w)
    ensures exists k :: Ranged(w, k)
  {
    hide Matches, All, Between;
    var ds := Plus(Chars(Digit));
    var tail := Cat(Is('-'), Cat(ds, Is(']')));
    var u, v := CatSplit(Is('['), Cat(ds, tail), w);
    var x, y := CatSplit(ds, tail, v);
    IsChar('[', u);
    PlusOfChars(Digit, x);
    Enclosed('-', ds, ']', y);
    PlusOfChars(Digit, y[1..|y|-1]);
    var k := 1 + |x|;
    assert x == w[1..k] && y[1..|y|-1] == w[k + 1..|w|-1] && w[k] == y[0] && w[|w|-1] == y[|y|-1];
    AllOf(Digit, w, 1, k);
    AllOf(Digit, w, k + 1, |w| - 1);
    assert Ranged(w, k);
  }

  lemma RangedIsRange(w: seq<Byte>, k: int)
    requires Ranged(w, k)
    ensures Matches(Pattern(5), w)
  {
    hide Matches, All, Between;
    var ds := Plus(Chars(Digit));
    var tail := Cat(Is('-'), Cat(ds, Is(']')));
    var u, x, y := w[..1], w[1..k], w[k..];
    AllOf(Digit, w, 1, k);
    AllOf(Digit, w, k + 1, |w| - 1);
    assert y[1..|y|-1] == w[k + 1..|w|-1];
    IsChar('[', u);
    PlusOfChars(Digit, x);
    PlusOfChars(Digit, y[1..|y|-1]);
    Enclosed('-', ds, ']', y);
    CatIs(ds, tail, x, y);
    CatIs(Is('['), Cat(ds, tail), u, x + y);
    assert w == u + (x + y);
  }

  lemma CommandPattern(w: seq<Byte>)
    ensures Matches(Pattern(6), w) <==> Looks(w, 6)
  {
    hide Matches, Named;
    if Matches(Pattern(6), w) {
      CommandIsNamed(w);
    }
    if Looks(w, 6) {
      var k :| Named(w, k);
      NamedIsCommand(w, k);
    }
  }

  lemma CommandIsNamed(w: seq<Byte>)
    requires Matches(Pattern(6), w)
    ensures exists k :: Named(w, k)
  {
    hide Matches, All, Between;
    var x, v := CatSplit(Plus(Chars(Wordy)), Cat(Star(Is(' ')), Is(';')), w);
    var y, z := CatSplit(Star(Is(' ')), Is(';'), v);
    PlusOfChars(Wordy, x);
    Blanks(y);
    IsChar(';', z);
    var k := |x|;
    assert x == w[0..k] && y == w[k..|w|-1];
    AllOf(Wordy, w, 0, k);
    AllOf(Space, w, k, |w| - 1);
    assert Named(w, k);
  }

  lemma NamedIsCommand(w: seq<Byte>, k: int)
    requires Named(w, k)
    ensures Matches(Pattern(6), w)
  {
    hide Matches, All, Between;
    var x, y, z := w[0..k], w[k..|w|-1], w[|w|-1..];
    AllOf(Wordy, w, 0, k);
    AllOf(Space, w, k, |w| - 1);
    PlusOfChars(Wordy, x);
    Blanks(y);
    IsChar(';', z);
    CatIs(Star(Is(' ')), Is(';'), y, z);
    CatIs(Plus(Chars(Wordy)), Cat(Star(Is(' ')), Is(';')), x, y + z);
    assert w == x + (y + z);
  }

  lemma Blanks(w: seq<Byte>)
    ensures Matches(Star(Is(' ')), w) <==> All(Space, w)
  {
    hide Matches;
    StarOfChars(b => b == ' ' as int, w);
  }

  lemma TwoChars(c: char, d: char, w: seq<Byte>)
    requires c as int < 256 && d as int < 256
    ensures Matches(Cat(Is(c), Is(d)), w) <==> w == [c as int, d as int]
  {
    hide Matches;
    if Matches(Cat(Is(c), Is(d)), w) {
      var u, v := CatSplit(Is(c), Is(d), w);
      IsChar(c, u);
      IsChar(d, v);
    }
    if w == [c as int, d as int] {
      IsChar(c, w[..1]);
      IsChar(d, w[1..]);
      CatIs(Is(c), Is(d), w[..1], w[1..]);
      assert w == w[..1] + w[1..];
    }
  }

  lemma ShortPatterns(w: seq<Byte>)
    ensures Matches(Pattern(7), w) <==> Looks(w, 7)
    ensures Matches(Pattern(8), w) <==> Looks(w, 8)
    ensures Matches(Pattern(9), w) <==> Looks(w, 9)
  {
    IsChar('\n', w);
    IsChar(' ', w);
    IsChar('\t', w);
    TwoChars('\r', '\n', w);
  }

  lemma {:induction false} Slashes(w: seq<Byte>)
    requires Matches(Star(Cat(Is('/'), Is('/'))), w)
    ensures All(NoNewline, w)
    decreases |w|
  {
    var re := Cat(Is('/'), Is('/'));
    if w != [] {
      var k :| 0 < k <= |w| && Matches(re, w[..k]) && Matches(Star(re), w[k..]);
      TwoChars('/', '/', w[..k]);
      Slashes(w[k..]);
      assert w[..k] == [47, 47] && w[0] == w[..k][0] && w[1] == w[..k][1];
      assert forall i {:trigger w[i]} | k <= i < |w| :: w[i] == w[k..][i - k];
    }
  }

  lemma LinePattern(w: seq<Byte>)
    ensures Matches(Pattern(2), w) <==> Looks(w, 2)
  {
    hide Matches;
    if Matches(Pattern(2), w) {
      LineLooks(w);
    }
    if Looks(w, 2) {
      LooksLine(w);
    }
  }

  lemma LineLooks(w: seq<Byte>)
    requires Matches(Pattern(2), w)
    ensures Looks(w, 2)
  {
    hide Matches;
    var re := Cat(Is('/'), Is('/'));
    var u, v := CatSplit(Plus(re), Star(Chars(NoNewline)), w);
    var x, y := CatSplit(re, Star(re), u);
    TwoChars('/', '/', x);
    Slashes(y);
    StarOfChars(NoNewline, v);
    assert w == x + (y + v);
    assert forall i {:trigger w[i]} | 2 <= i < |w| :: w[i] == if i - 2 < |y| then y[i - 2] else v[i - 2 - |y|];
  }

  lemma LooksLine(w: seq<Byte>)
    requires Looks(w, 2)
    ensures Matches(Pattern(2), w)
  {
    hide Matches;
    var re := Cat(Is('/'), Is('/'));
    TwoChars('/', '/', w[..2]);
    NoneMatch(re);
    CatIs(re, Star(re), w[..2], []);
    assert w[2..|w|] == w[2..];
    AllOf(NoNewline, w, 2, |w|);
    StarOfChars(NoNewline, w[2..]);
    CatIs(Plus(re), Star(Chars(NoNewline)), w[..2] + [], w[2..]);
    assert w == w[..2] + [] + w[2..];
  }

  lemma NoneMatch(re: Regex)
    ensures Matches(Star(re), [])
  {
  }

  // ---------------------------------------------------------------- comments

  /** The bytes of a comment before its last: they end in a star, and no comment ends in them. */
  ghost predicate Body(t: seq<Byte>) {
    t != [] && t[|t|-1] == STAR && NoEnd(t, 0, |t|)
  }

  /** No star before place k, and nothing else from there on. */
  ghost predicate Trailing(t: seq<Byte>, k: int) {
    && 0 <= k < |t|
    && (forall i {:trigger t[i]} | 0 <= i < k :: t[i] != STAR)
    && (forall i {:trigger t[i]} | k <= i < |t| :: t[i] == STAR)
  }

  predicate IsStar(b: Byte) { b == STAR }

  lemma StarsAre(w: seq<Byte>)
    ensures Matches(Stars(), w) <==> w != [] && All(IsStar, w)
  {
    hide Matches;
    PlusOfChars(b => b == '*' as int, w);
  }

  lemma BlockIs(t: seq<Byte>)
    requires Matches(Cat(Plain(), Stars()), t)
    ensures exists k :: Trailing(t, k)
  {
    hide Matches;
    var u, v := CatSplit(Plain(), Stars(), t);
    StarOfChars(NoStar, u);
    StarsAre(v);
    assert forall i {:trigger t[i]} | 0 <= i < |u| :: t[i] == u[i];
    assert forall i {:trigger t[i]} | |u| <= i < |t| :: t[i] == v[i - |u|];
    assert Trailing(t, |u|);
  }

  lemma IsBlock(t: seq<Byte>, k: nat)
    requires Trailing(t, k)
    ensures Matches(Cat(Plain(), Stars()), t)
  {
    hide Matches;
    StarOfChars(NoStar, t[..k]);
    StarsAre(t[k..]);
    CatIs(Plain(), Stars(), t[..k], t[k..]);
    assert t == t[..k] + t[k..];
  }

  lemma BlockIsBody(t: seq<Byte>, k: nat)
    requires Trailing(t, k)
    ensures Body(t)
  {
  }

  /** A section keeps a body a body. */
  lemma BodyAndSection(p: seq<Byte>, q: seq<Byte>)
    requires Body(p) && Matches(Section(), q)
    ensures Body(p + q) && q != []
  {
    hide Matches;
    var u, v := CatSplit(Chars(NoStarNorSlash), Cat(Plain(), Stars()), q);
    OneChar(NoStarNorSlash, u);
    BlockIs(v);
    var k :| Trailing(v, k);
    var t := p + q;
    forall i {:trigger t[i]} | 0 <= i < |t| - 1
      ensures !(t[i] == STAR && t[i + 1] == SLASH)
    {
      if i + 1 < |p| {
        assert t[i] == p[i] && t[i + 1] == p[i + 1];
      } else if i + 1 == |p| {
        assert t[i + 1] == u[0];
      } else {
        assert t[i] == q[i - |p|] && t[i + 1] == v[i - |p|];
      }
    }
    assert t[|t|-1] == v[|v|-1];
  }

  lemma OneChar(has: Byte -> bool, w: seq<Byte>)
    ensures Matches(Chars(has), w) <==> |w| == 1 && has(w[0])
  {
  }

  lemma {:induction false} BodyAndSections(p: seq<Byte>, s: seq<Byte>)
    requires Body(p) && Matches(Star(Section()), s)
    ensures Body(p + s)
    decreases |s|
  {
    hide Body;
    if s == [] {
      assert p + s == p;
    } else {
      var k :| 0 < k <= |s| && Matches(Section(), s[..k]) && Matches(Star(Section()), s[k..]);
      BodyAndSection(p, s[..k]);
      BodyAndSections(p + s[..k], s[k..]);
      assert p + s == p + s[..k] + s[k..];
    }
  }

  /** The stars at the end of a body, and what is before them. */
  lemma {:induction false} LastStars(t: seq<Byte>, j: nat) returns (k: nat)
    requires j < |t| && t[|t|-1] == STAR && forall i {:trigger t[i]} | j <= i < |t| :: t[i] == STAR
    ensures k <= j && (k > 0 ==> t[k - 1] != STAR) && forall i {:trigger t[i]} | k <= i < |t| :: t[i] == STAR
  {
    if j == 0 || t[j - 1] != STAR {
      k := j;
    } else {
      k := LastStars(t, j - 1);
    }
  }

  /** The last star before place j, or none. */
  lemma {:induction false} StarBefore(t: seq<Byte>, j: nat) returns (i: int)
    requires j <= |t|
    ensures -1 <= i < j && (i >= 0 ==> t[i] == STAR) && forall k {:trigger t[k]} | i < k < j :: t[k] != STAR
  {
    if j == 0 {
      i := -1;
    } else if t[j - 1] == STAR {
      i := j - 1;
    } else {
      i := StarBefore(t, j - 1);
    }
  }

  function Inside(): Regex { Cat(Cat(Plain(), Stars()), Star(Section())) }

  lemma {:induction false} BodyMatches(t: seq<Byte>)
    requires Body(t)
    ensures Matches(Inside(), t)
    decreases |t|
  {
    hide Matches;
    var block := Cat(Plain(), Stars());
    var j := LastStars(t, |t| - 1);
    var i := StarBefore(t, j);
    if i < 0 {
      IsBlock(t, j);
      NoneMatch(Section());
      CatIs(block, Star(Section()), t, []);
      assert t == t + [];
    } else {
      var p, q := t[..i + 1], t[i + 1..];
      assert Body(p);
      BodyMatches(p);
      LastSection(t, i, j);
      var b, s := CatSplit(block, Star(Section()), p);
      StarPush(Section(), s, q);
      CatIs(block, Star(Section()), b, s + q);
      assert t == b + (s + q);
    }
  }

  lemma LastSection(t: seq<Byte>, i: nat, j: nat)
    requires Body(t) && i + 1 < j < |t| && t[i] == STAR
    requires forall k {:trigger t[k]} | i < k < j :: t[k] != STAR
    requires forall k {:trigger t[k]} | j <= k < |t| :: t[k] == STAR
    ensures Matches(Section(), t[i + 1..]) && t[i + 1..] != []
  {
    hide Matches;
    var u, v := t[i + 1..i + 2], t[i + 2..];
    assert t[i + 1] != SLASH && u[0] == t[i + 1];
    OneChar(NoStarNorSlash, u);
    assert forall k {:trigger v[k]} | 0 <= k < |v| :: v[k] == t[i + 2 + k];
    IsBlock(v, j - i - 2);
    CatIs(Chars(NoStarNorSlash), Cat(Plain(), Stars()), u, v);
    assert t[i + 1..] == u + v;
  }

  lemma InsideIsBody(t: seq<Byte>)
    ensures Matches(Inside(), t) <==> Body(t)
  {
    hide Matches;
    if Matches(Inside(), t) {
      var b, s := CatSplit(Cat(Plain(), Stars()), Star(Section()), t);
      BlockIs(b);
      var k :| Trailing(b, k);
      BlockIsBody(b, k);
      BodyAndSections(b, s);
    }
    if Body(t) {
      BodyMatches(t);
    }
  }

  lemma CommentPattern(w: seq<Byte>)
    ensures Matches(Pattern(1), w) <==> Looks(w, 1)
  {
    hide Matches;
    if Matches(Pattern(1), w) {
      CommentLooks(w);
    }
    if Looks(w, 1) {
      LooksComment(w);
    }
  }

  lemma CommentLooks(w: seq<Byte>)
    requires Matches(Pattern(1), w)
    ensures Looks(w, 1)
  {
    hide Matches;
    var u, v := CatSplit(Cat(Is('/'), Is('*')), Cat(Inside(), Is('/')), w);
    var t, z := CatSplit(Inside(), Is('/'), v);
    TwoChars('/', '*', u);
    InsideIsBody(t);
    IsChar('/', z);
    assert forall k {:trigger w[k]} | 2 <= k < |w| - 1 :: w[k] == t[k - 2];
    assert w[|w|-1] == z[0];
  }

  lemma LooksComment(w: seq<Byte>)
    requires Looks(w, 1)
    ensures Matches(Pattern(1), w)
  {
    hide Matches;
    var u, t, z := w[..2], w[2..|w|-1], w[|w|-1..];
    assert forall k {:trigger t[k]} | 0 <= k < |t| :: t[k] == w[k + 2];
    TwoChars('/', '*', u);
    InsideIsBody(t);
    IsChar('/', z);
    CatIs(Inside(), Is('/'), t, z);
    CatIs(Cat(Is('/'), Is('*')), Cat(Inside(), Is('/')), u, t + z);
    assert w == u + (t + z);
  }

  /** The patterns, all nine of them, match what they look like. */
  lemma PatternsLook(w: seq<Byte>, r: nat)
    requires 1 <= r <= 9
    ensures Matches(Pattern(r), w) <==> Looks(w, r)
  {
    hide Matches, Looks;
    if r == 1 {
      CommentPattern(w);
    } else if r == 2 {
      LinePattern(w);
    } else if r == 3 {
      NumberPattern(w);
    } else if r == 4 {
      NamePattern(w);
    } else if r == 5 {
      RangePattern(w);
    } else if r == 6 {
      CommandPattern(w);
    } else {
      ShortPatterns(w);
    }
  }
}
