/** The scanner's automaton: the compressed tables yylex steps through, and the plain
    transition function they compress. */
module ScanTables {

  type Byte = b: int | 0 <= b < 256

  // yy_ec, cut into ranges; class 0 is the end-of-buffer character NUL
  function Ec(b: Byte): nat {
    if b == 0 then 0
    else if b == 9 then 2
    else if b == 10 then 3
    else if b == 13 then 4
    else if b == 32 then 5
    else if b == 42 then 6
    else if b == 45 then 7
    else if b == 47 then 8
    else if 48 <= b <= 57 then 9
    else if b == 59 then 10
    else if 65 <= b <= 90 || b == 95 || 97 <= b <= 122 then 11
    else if b == 91 then 12
    else if b == 93 then 13
    else 1
  }

  // The generated arrays, as functions of the index; every index not listed holds the
  // most frequent entry.

  function YyAccept(i: nat): nat {
    match i
    case 3 => 10 case 4 => 9 case 5 => 8 case 6 => 7 case 7 => 9 case 8 => 9 case 9 => 9
    case 10 => 9 case 11 => 7 case 13 => 2 case 16 => 6 case 19 => 4 case 22 => 2 case 23 => 2
    case 25 => 3 case 27 => 1 case 28 => 2 case 32 => 5
    case _ => 0
  }

  function YyBase(i: nat): nat {
    match i
    case 0 => 0 case 1 => 0 case 2 => 0 case 3 => 38 case 7 => 33 case 8 => 8 case 9 => 12
    case 10 => 15 case 12 => 27 case 13 => 24 case 14 => 24 case 15 => 0 case 17 => 28
    case 18 => 22 case 20 => 24 case 21 => 36 case 22 => 0 case 23 => 19 case 24 => 16
    case 26 => 14 case 28 => 11 case 29 => 36 case 30 => 12 case 31 => 44 case 34 => 52
    case 35 => 14 case 36 => 54 case 37 => 56
    case _ => 59
  }

  function YyDef(i: nat): nat {
    match i
    case 0 => 0 case 2 => 1 case 12 => 34 case 13 => 35 case 15 => 9 case 18 => 10 case 20 => 34
    case 21 => 36 case 22 => 35 case 23 => 35 case 26 => 37 case 28 => 35 case 30 => 37
    case 31 => 36 case 33 => 0
    case _ => 33
  }

  function YyNxt(i: nat): nat {
    match i
    case 0 => 0 case 1 => 4 case 2 => 5 case 3 => 6 case 4 => 7 case 5 => 5 case 6 => 4
    case 7 => 4 case 8 => 8 case 9 => 9 case 10 => 4 case 11 => 9 case 12 => 10 case 13 => 4
    case 14 => 12 case 15 => 22 case 16 => 13 case 17 => 14 case 18 => 31 case 19 => 23
    case 20 => 31 case 21 => 15 case 22 => 16 case 23 => 15 case 24 => 17 case 25 => 29
    case 26 => 18 case 27 => 28 case 28 => 19 case 29 => 14 case 30 => 21 case 32 => 23
    case 33 => 21 case 34 => 16 case 35 => 24 case 36 => 11 case 37 => 17 case 41 => 25
    case 42 => 21 case 44 => 27 case 45 => 29 case 49 => 32 case 50 => 31 case 52 => 27
    case 53 => 20 case 54 => 20 case 55 => 26 case 56 => 26 case 57 => 30 case 58 => 30
    case 59 => 3
    case _ => 33
  }

  function YyChk(i: nat): nat {
    match i
    case 0 => 0 case 1 => 1 case 2 => 1 case 3 => 1 case 4 => 1 case 5 => 1 case 6 => 1
    case 7 => 1 case 8 => 1 case 9 => 1 case 10 => 1 case 11 => 1 case 12 => 1 case 13 => 1
    case 14 => 8 case 15 => 35 case 16 => 8 case 17 => 9 case 18 => 30 case 19 => 28 case 20 => 26
    case 21 => 9 case 22 => 9 case 23 => 9 case 24 => 10 case 25 => 24 case 26 => 10 case 27 => 23
    case 28 => 10 case 29 => 14 case 30 => 20 case 31 => 18 case 32 => 13 case 33 => 12
    case 34 => 14 case 35 => 17 case 36 => 7 case 37 => 17 case 38 => 3 case 39 => 0 case 40 => 0
    case 41 => 17 case 42 => 21 case 43 => 0 case 44 => 21 case 45 => 29 case 46 => 0 case 47 => 0
    case 48 => 0 case 49 => 29 case 50 => 31 case 51 => 0 case 52 => 31 case 53 => 34
    case 54 => 34 case 55 => 36 case 56 => 36 case 57 => 37 case 58 => 37
    case _ => 33
  }

  function YyMeta(i: nat): nat {
    match i
    case 0 => 0 case 3 => 2
    case _ => 1
  }

  const START: nat := 1
  const JAM: nat := 33
  const END_OF_BUFFER: nat := 3
  const YY_END_OF_BUFFER: nat := 10    // the action of state END_OF_BUFFER

  /** Rules whose text can contain a newline. */
  const YY_RULE_CAN_MATCH_EOL: set<nat> := {1, 7}

  /** How often yy_def can be followed from s. */
  function Depth(s: nat): nat {
    if s == 33 then 0
    else if s in {2, 12, 13, 15, 18, 20, 21, 22, 23, 26, 28, 30, 31} then 2
    else 1
  }

  /** One transition through the compressed tables, as in the inner loop of yy_match. */
  function Walk(s: nat, c: nat): nat
    requires 0 < s < 38 && c < 14
    decreases Depth(s)
  {
    assert YyBase(s) + c < 73;
    assert s == JAM ==> YyChk(YyBase(s) + c) == s;
    if YyChk(YyBase(s) + c) == s then YyNxt(YyBase(s) + c)
    else Walk(YyDef(s), if YyDef(s) >= 34 then YyMeta(c) else c)
  }

  /** The uncompressed automaton on the classes 1..13 (a NUL in the text has class 1). */
  function Step(s: nat, c: nat): nat {
    match s
    case 1 => if c == 2 || c == 5 then 5 else if c == 3 then 6 else if c == 4 then 7 else if c == 8 then 8
      else if c == 9 || c == 11 then 9 else if c == 12 then 10 else 4
    case 7 => if c == 3 then 11 else JAM
    case 8 => if c == 6 then 12 else if c == 8 then 13 else JAM
    case 9 => if c == 5 then 14 else if c == 9 || c == 11 then 15 else if c == 10 then 16 else JAM
    case 10 => if c == 9 then 17 else if c == 11 then 18 else if c == 13 then 19 else JAM
    case 12 => if c == 6 then 21 else 20
    case 13 => if c == 3 then JAM else if c == 8 then 23 else 22
    case 14 => if c == 5 then 14 else if c == 10 then 16 else JAM
    case 15 => if c == 5 then 14 else if c == 9 || c == 11 then 15 else if c == 10 then 16 else JAM
    case 17 => if c == 7 then 24 else if c == 9 then 17 else if c == 13 then 25 else JAM
    case 18 => if c == 11 then 18 else if c == 13 then 19 else JAM
    case 20 => if c == 6 then 21 else 20
    case 21 => if c == 6 then 21 else if c == 8 then 27 else 26
    case 22 => if c == 3 then JAM else 22
    case 23 => if c == 3 then JAM else if c == 8 then 28 else 22
    case 24 => if c == 9 then 29 else JAM
    case 26 => if c == 6 then 31 else 30
    case 28 => if c == 3 then JAM else if c == 8 then 23 else 22
    case 29 => if c == 9 then 29 else if c == 13 then 32 else JAM
    case 30 => if c == 6 then 31 else 30
    case 31 => if c == 6 then 31 else if c == 8 then 27 else 26
    case _ => JAM
  }

  lemma JamRow(c: nat)
    requires c < 14
    ensures YyChk(YyBase(JAM) + c) == JAM
    ensures Walk(JAM, c) == if c == 0 then END_OF_BUFFER else JAM
  {
    assert YyBase(JAM) == 59 && YyChk(59 + c) == 33;
  }

  lemma TemplateRow(s: nat, m: nat)
    requires 34 <= s < 38 && m < 3
    ensures Walk(s, m) ==
      if m == 0 then END_OF_BUFFER
      else if m == 2 && s == 35 then JAM
      else match s case 34 => 20 case 35 => 22 case 36 => 26 case _ => 30
  {
    JamRow(m);
  }

  lemma WalkOnce(s: nat, c: nat)
    requires 0 < s < 38 && c < 14
    ensures Walk(s, c) ==
      if YyChk(YyBase(s) + c) == s then YyNxt(YyBase(s) + c)
      else Walk(YyDef(s), if YyDef(s) >= 34 then YyMeta(c) else c)
  {
  }

  lemma FinalRows(s: nat, c: nat)
    requires c < 14 && s in {1, 4, 5, 6, 11, 16, 19, 25, 27, 32}
    ensures Walk(s, c) == if c == 0 then END_OF_BUFFER else Step(s, c)
  {
    hide Walk;
    WalkOnce(s, c);
    JamRow(c);
  }

  lemma CrAndSlashRows(s: nat, c: nat)
    requires c < 14 && s in {7, 8, 14}
    ensures Walk(s, c) == if c == 0 then END_OF_BUFFER else Step(s, c)
  {
    hide Walk;
    WalkOnce(s, c);
    JamRow(c);
  }

  lemma NumberRows(s: nat, c: nat)
    requires c < 14 && s in {17, 24, 29}
    ensures Walk(s, c) == if c == 0 then END_OF_BUFFER else Step(s, c)
  {
    hide Walk;
    WalkOnce(s, c);
    JamRow(c);
  }

  lemma CommentRows(s: nat, c: nat)
    requires c < 14 && s in {12, 20, 26, 30}
    ensures Walk(s, c) == if c == 0 then END_OF_BUFFER else Step(s, c)
  {
    hide Walk;
    WalkOnce(s, c);
    TemplateRow(if s == 12 || s == 20 then 34 else 37, YyMeta(c));
  }

  lemma CommentStarRows(s: nat, c: nat)
    requires c < 14 && s in {21, 31}
    ensures Walk(s, c) == if c == 0 then END_OF_BUFFER else Step(s, c)
  {
    hide Walk;
    WalkOnce(s, c);
    TemplateRow(36, YyMeta(c));
  }

  lemma LineCommentRows(s: nat, c: nat)
    requires c < 14 && s in {13, 22, 23, 28}
    ensures Walk(s, c) == if c == 0 then END_OF_BUFFER else Step(s, c)
  {
    hide Walk;
    WalkOnce(s, c);
    TemplateRow(35, YyMeta(c));
  }

  lemma WordRow(s: nat, c: nat)
    requires c < 14 && s == 9
    ensures Walk(s, c) == if c == 0 then END_OF_BUFFER else Step(s, c)
  {
    hide Walk;
    WalkOnce(s, c);
    JamRow(c);
  }

  lemma BracketRow(s: nat, c: nat)
    requires c < 14 && s == 10
    ensures Walk(s, c) == if c == 0 then END_OF_BUFFER else Step(s, c)
  {
    hide Walk;
    WalkOnce(s, c);
    JamRow(c);
  }

  lemma WordTailRow(s: nat, c: nat)
    requires c < 14 && s == 15
    ensures Walk(s, c) == if c == 0 then END_OF_BUFFER else Step(s, c)
  {
    hide Walk;
    WalkOnce(s, c);
    WordRow(9, c);
    if YyChk(YyBase(15) + c) != 15 {
      assert Walk(15, c) == Walk(9, c);
    }
  }

  lemma NameTailRow(s: nat, c: nat)
    requires c < 14 && s == 18
    ensures Walk(s, c) == if c == 0 then END_OF_BUFFER else Step(s, c)
  {
    hide Walk;
    WalkOnce(s, c);
    BracketRow(10, c);
    if YyChk(YyBase(18) + c) != 18 {
      assert Walk(18, c) == Walk(10, c);
    }
  }

  /** Once in END_OF_BUFFER the automaton jams on whatever follows. */
  lemma EndRow(c: nat)
    requires c < 14
    ensures Walk(END_OF_BUFFER, c) == JAM
  {
    hide Walk;
    WalkOnce(END_OF_BUFFER, c);
    JamRow(c);
  }

  /** The states the automaton can be in while it reads text from START. */
  predicate Proper(s: nat) {
    0 < s < 33 && s != 2 && s != END_OF_BUFFER
  }

  /** The compressed tables encode Step, and lead from every proper state to
      END_OF_BUFFER on the end-of-buffer character. */
  lemma WalkIsStep(s: nat, c: nat)
    requires Proper(s) && c < 14
    ensures Walk(s, c) == if c == 0 then END_OF_BUFFER else Step(s, c)
    ensures c > 0 ==> Step(s, c) == JAM || Proper(Step(s, c))
  {
    hide Walk;
    if s in {7, 8, 14} {
      CrAndSlashRows(s, c);
    } else if s in {17, 24, 29} {
      NumberRows(s, c);
    } else if s in {12, 20, 26, 30} {
      CommentRows(s, c);
    } else if s in {21, 31} {
      CommentStarRows(s, c);
    } else if s in {13, 22, 23, 28} {
      LineCommentRows(s, c);
    } else if s == 9 {
      WordRow(s, c);
    } else if s == 10 {
      BracketRow(s, c);
    } else if s == 15 {
      WordTailRow(s, c);
    } else if s == 18 {
      NameTailRow(s, c);
    } else {
      FinalRows(s, c);
    }
  }

  /** States with base 59 have no transitions; the scanner stops there at once. */
  lemma NoWayOn(s: nat, c: nat)
    requires Proper(s) && YyBase(s) == YyBase(JAM) && 0 < c < 14
    ensures Step(s, c) == JAM && YyAccept(s) != 0
  {
  }
}
