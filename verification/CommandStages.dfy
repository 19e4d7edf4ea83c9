/** The process_* functions of the command parser: a little machine that checks the order
    of the commands, numbers them, and files the comments. */
module CommandStages {

  /** One command: its text, which its action finds in yylval, and the line that the scanner
      is in when the action runs. */
  datatype Kind = GlobalComment | LineComment | Index | FileName | TakeBits | CmdName
  datatype Command = Command(kind: Kind, text: string, line: nat)

  /** What is handed to jf_cmd_parser_t. */
  datatype Call = SetGlobalComment(text: string) | SetLineComment(text: string, line: nat) | SetFileName(text: string)
    | SetBits(text: string) | SetCmdName(text: string, line: nat, index: nat)

  // ---------------------------------------------------------------- what is to hold

  /** The last of INDEX, FILENAME and TAKEBITS among the first n commands, if any. */
  function LastKey(cs: seq<Command>, n: nat): (k: int)
    requires n <= |cs|
    ensures -1 <= k < n && (k >= 0 ==> cs[k].kind in {Index, FileName, TakeBits})
    ensures forall i {:trigger cs[i]} | k < i < n :: cs[i].kind !in {Index, FileName, TakeBits}
  {
    if n == 0 then -1
    else if cs[n-1].kind in {Index, FileName, TakeBits} then n - 1
    else LastKey(cs, n - 1)
  }

  /** The first n commands are in order: bits follow a file name, and command names follow
      bits, with no other key in between. */
  predicate InOrder(cs: seq<Command>, n: nat)
    requires n <= |cs|
  {
    forall i {:trigger cs[i]} | 0 <= i < n ::
      && (cs[i].kind == TakeBits ==> LastKey(cs, i) >= 0 && cs[LastKey(cs, i)].kind == FileName)
      && (cs[i].kind == CmdName ==> LastKey(cs, i) >= 0 && cs[LastKey(cs, i)].kind == TakeBits)
  }

  /** The number of command names among the first n commands since the last file name. */
  function Numbered(cs: seq<Command>, n: nat): nat
    requires n <= |cs|
  {
    if n == 0 || cs[n-1].kind == FileName then 0
    else Numbered(cs, n - 1) + if cs[n-1].kind == CmdName then 1 else 0
  }

  /** A global comment belongs to the command name before it when it is the first on that
      name's line. */
  predicate Trailing(cs: seq<Command>, n: nat)
    requires n < |cs|
  {
    exists j {:trigger cs[j]} :: 0 <= j < n && Heads(cs, j, n, cs[n].line)
  }

  /** The command name at j is the last one before n, is on this line, and no global
      comment on the line has come since. */
  predicate Heads(cs: seq<Command>, j: nat, n: nat, line: nat)
    requires j < n <= |cs|
  {
    && cs[j].kind == CmdName && cs[j].line == line
    && forall i {:trigger cs[i]} | j < i < n ::
      cs[i].kind != CmdName && !(cs[i].kind == GlobalComment && cs[i].line == line)
  }

  lemma OneHead(cs: seq<Command>, j: nat, j': nat, n: nat, line: nat, line': nat)
    requires j < n <= |cs| && j' < n && Heads(cs, j, n, line) && Heads(cs, j', n, line')
    ensures j == j' && line == line'
  {
  }

  lemma HeadsNext(cs: seq<Command>, j: nat, n: nat, line: nat)
    requires j <= n < |cs|
    ensures j < n ==> (Heads(cs, j, n + 1, line) <==>
      Heads(cs, j, n, line) && cs[n].kind != CmdName && !(cs[n].kind == GlobalComment && cs[n].line == line))
    ensures j == n ==> (Heads(cs, j, n + 1, line) <==> cs[n].kind == CmdName && cs[n].line == line)
  {
  }

  /** `treat` is the line of the command name that a comment may still belong to. */
  ghost predicate Treats(cs: seq<Command>, n: nat, treat: nat)
    requires n <= |cs|
  {
    && (treat == 0 ==> forall j {:trigger cs[j]} | 0 <= j < n :: !Heads(cs, j, n, cs[j].line))
    && (treat > 0 ==> exists j {:trigger cs[j]} :: 0 <= j < n && Heads(cs, j, n, treat))
  }

  lemma TreatsMeans(cs: seq<Command>, n: nat, treat: nat)
    requires n < |cs| && Treats(cs, n, treat) && cs[n].line > 0
    ensures Trailing(cs, n) <==> treat == cs[n].line
  {
    if Trailing(cs, n) {
      var j :| 0 <= j < n && Heads(cs, j, n, cs[n].line);
      assert cs[j].line == cs[n].line;
      if treat > 0 {
        var j' :| 0 <= j' < n && Heads(cs, j', n, treat);
        OneHead(cs, j, j', n, cs[n].line, treat);
      }
    }
    if treat == cs[n].line {
      var j :| 0 <= j < n && Heads(cs, j, n, treat);
      assert cs[j].line == cs[n].line;
    }
  }

  lemma TreatsNext(cs: seq<Command>, n: nat, treat: nat)
    requires n < |cs| && Treats(cs, n, treat) && cs[n].line > 0
    ensures Treats(cs, n + 1, if cs[n].kind == CmdName then cs[n].line
                              else if cs[n].kind == GlobalComment && cs[n].line == treat then 0 else treat)
  {
    HeadsNext(cs, n, n, cs[n].line);
    if cs[n].kind == CmdName {
      assert cs[n] == cs[n];
    } else if treat == 0 {
      forall j {:trigger cs[j]} | 0 <= j < n + 1
        ensures !Heads(cs, j, n + 1, cs[j].line)
      {
        HeadsNext(cs, j, n, cs[j].line);
      }
    } else {
      var h :| 0 <= h < n && Heads(cs, h, n, treat);
      HeadsNext(cs, h, n, treat);
      forall j {:trigger cs[j]} | 0 <= j < n + 1 && cs[n].kind == GlobalComment && cs[n].line == treat
        ensures !Heads(cs, j, n + 1, cs[j].line)
      {
        HeadsNext(cs, j, n, cs[j].line);
        if j < n && Heads(cs, j, n, cs[j].line) {
          OneHead(cs, h, j, n, treat, cs[j].line);
        }
      }
      assert cs[h] == cs[h];
    }
  }

  /** What the i-th command hands on; None for an index. */
  function Wanted(cs: seq<Command>, i: nat): seq<Call>
    requires i < |cs|
  {
    var c := cs[i];
    match c.kind
    case GlobalComment => if Trailing(cs, i) then [SetLineComment(c.text, c.line)] else [SetGlobalComment(c.text)]
    case LineComment => [SetLineComment(c.text, c.line)]
    case Index => []
    case FileName => [SetFileName(c.text)]
    case TakeBits => [SetBits(c.text)]
    case CmdName => [SetCmdName(c.text, c.line, Numbered(cs, i))]
  }

  function AllWanted(cs: seq<Command>, n: nat): seq<Call>
    requires n <= |cs|
  {
    if n == 0 then [] else AllWanted(cs, n - 1) + Wanted(cs, n - 1)
  }

  // ---------------------------------------------------------------- the machine

  class Stages {
    var stage: nat
    var cmdIdx: nat
    var treatAsSingle: nat      // the line a global comment is taken for a line comment on; 0 for none
    var calls: seq<Call>

    constructor ()
      ensures stage == 1 && cmdIdx == 0 && treatAsSingle == 0 && calls == []
    {
      stage, cmdIdx, treatAsSingle, calls := 1, 0, 0, [];
    }

    /** The state after the first n commands, none of which ended the program. */
    ghost predicate After(cs: seq<Command>, n: nat)
      requires n <= |cs|
      reads this
    {
      && InOrder(cs, n)
      && (var k := LastKey(cs, n);
          stage == if k < 0 then 1 else match cs[k].kind case FileName => 2 case TakeBits => 3 case _ => 1)
      && cmdIdx == Numbered(cs, n)
      && Treats(cs, n, treatAsSingle)
      && calls == AllWanted(cs, n)
    }

    method ProcessLineComment(cont: string, line: nat)
      modifies this`calls
      ensures calls == old(calls) + [SetLineComment(cont, line)]
    {
      calls := calls + [SetLineComment(cont, line)];
    }

    method ProcessGlobalComment(cont: string, line: nat)
      modifies this`calls, this`treatAsSingle
      ensures calls == old(calls)
                    + [if old(treatAsSingle) == line then SetLineComment(cont, line) else SetGlobalComment(cont)]
      ensures treatAsSingle == if old(treatAsSingle) == line then 0 else old(treatAsSingle)
    {
      if treatAsSingle == line {
        ProcessLineComment(cont, line);
        treatAsSingle := 0;
      } else {
        calls := calls + [SetGlobalComment(cont)];
      }
    }

    method ProcessIndex()
      modifies this`stage
      ensures stage == 1
    {
      stage := 0;
      stage := stage + 1;
    }

    method ProcessCreateNewFile(cont: string)
      modifies this`stage, this`cmdIdx, this`calls
      ensures stage == 2 && cmdIdx == 0 && calls == old(calls) + [SetFileName(cont)]
    {
      stage := 1;
      cmdIdx := 0;
      stage := stage + 1;
      calls := calls + [SetFileName(cont)];
    }

    /** Returns whether the program exits. */
    method ProcessTakeBits(cont: string) returns (exits: bool)
      modifies this`stage, this`calls
      ensures exits <==> old(stage) != 2
      ensures exits ==> unchanged(this)
      ensures !exits ==> stage == 3 && calls == old(calls) + [SetBits(cont)]
    {
      if stage != 2 {
        return true;
      }
      stage := stage + 1;
      calls := calls + [SetBits(cont)];
      exits := false;
    }

    method ProcessCmd(cont: string, line: nat) returns (exits: bool)
      modifies this`treatAsSingle, this`cmdIdx, this`calls
      ensures exits <==> stage != 3
      ensures exits ==> unchanged(this)
      ensures !exits ==> treatAsSingle == line && cmdIdx == old(cmdIdx) + 1
      ensures !exits ==> calls == old(calls) + [SetCmdName(cont, line, old(cmdIdx))]
    {
      if stage != 3 {
        return true;
      }
      treatAsSingle := line;
      calls := calls + [SetCmdName(cont, line, cmdIdx)];
      cmdIdx := cmdIdx + 1;
      exits := false;
    }

    /** The action of the n-th command.  The program exits exactly when this command is the
        first out of order; if it does not, everything handed on is what is wanted. */
    method Process(ghost cs: seq<Command>, ghost n: nat, c: Command) returns (exits: bool)
      requires n < |cs| && c == cs[n] && c.line > 0 && After(cs, n)
      modifies this
      ensures exits <==> !InOrder(cs, n + 1)
      ensures if exits then unchanged(this) else After(cs, n + 1)
    {
      hide Treats, Trailing;
      TreatsMeans(cs, n, treatAsSingle);
      TreatsNext(cs, n, treatAsSingle);
      exits := false;
      match c.kind
      case GlobalComment =>
        ProcessGlobalComment(c.text, c.line);
      case LineComment =>
        ProcessLineComment(c.text, c.line);
      case Index =>
        ProcessIndex();
      case FileName =>
        ProcessCreateNewFile(c.text);
      case TakeBits =>
        exits := ProcessTakeBits(c.text);
      case CmdName =>
        exits := ProcessCmd(c.text, c.line);
    }

    /** All the actions of a parse.  The program does not exit if and only if bits always
        follow a file name and command names always follow bits; then every command name
        has been numbered from its file name on, and every comment filed where it belongs. */
    method ProcessAll(cs: seq<Command>) returns (exits: bool)
      requires stage == 1 && cmdIdx == 0 && treatAsSingle == 0 && calls == []
      requires forall i {:trigger cs[i]} | 0 <= i < |cs| :: cs[i].line > 0
      modifies this
      ensures exits <==> !InOrder(cs, |cs|)
      ensures !exits ==> calls == AllWanted(cs, |cs|)
    {
      hide AllWanted;
      var n := 0;
      NothingWanted(cs);
      while n < |cs|
        invariant 0 <= n <= |cs| && After(cs, n)
      {
        exits := Process(cs, n, cs[n]);
        if exits {
          return;
        }
        n := n + 1;
      }
      exits := false;
    }
  }

  lemma NothingWanted(cs: seq<Command>)
    ensures AllWanted(cs, 0) == []
  {
  }
}
