/** The instruction classifier: cleaning of raw source lines
    (`Parser.pre_process`) and classification of one cleaned line into a
    command kind with its operands (`command_type`, `cmd_arg1`, `cmd_arg2`). */
module Parser {
  import opened Wrappers
  import opened Text
  import opened Seqs

  /** The nine command kinds (`C_ARITHMETIC`, `C_PUSH`, ... in the source). */
  datatype Kind = Arithmetic | Push | Pop | Label | Goto | If | Function | Return | Call

  /** The two errors `command_type` raises. */
  datatype ParseError =
    | InvalidNumberOfCommands   // more than three words on one line
    | InvalidCommandType        // the first word names no command

  /** The arithmetic and logical command names (`arithCmds`). */
  const ArithCmds: seq<string> := ["add", "sub", "neg", "eq", "gt", "lt", "and", "or", "not"]

  /** The keyword that introduces each kind other than `Arithmetic`. */
  function Keyword(k: Kind): string
    requires k != Arithmetic
  {
    match k
    case Push => "push"
    case Pop => "pop"
    case Label => "label"
    case Goto => "goto"
    case If => "if-goto"
    case Function => "function"
    case Return => "return"
    case Call => "call"
  }

  /** Word `w` is a way of writing a command of kind `k`. */
  predicate Spells(k: Kind, w: string) {
    if k == Arithmetic then w in ArithCmds else w == Keyword(k)
  }

  /** The keywords of the non-arithmetic commands. */
  const Keywords: seq<string> := ["push", "pop", "label", "goto", "if-goto", "function", "return", "call"]

  /** `w` names a command: a keyword or an arithmetic command name. */
  predicate IsCommandWord(w: string) {
    w in Keywords || w in ArithCmds
  }

  /** The kind the first word of a line selects, or `None` for a word that
      names no command. */
  function KindOf(w: string): (r: Option<Kind>)
    ensures r.Some? ==> Spells(r.value, w)
    ensures r.Some? <==> IsCommandWord(w)
  {
    if w == "push" then Some(Push)
    else if w == "pop" then Some(Pop)
    else if w in ArithCmds then Some(Arithmetic)
    else if w == "label" then Some(Label)
    else if w == "goto" then Some(Goto)
    else if w == "if-goto" then Some(If)
    else if w == "function" then Some(Function)
    else if w == "return" then Some(Return)
    else if w == "call" then Some(Call)
    else None
  }

  /** No word spells two different kinds. */
  lemma SpellsUnique(k1: Kind, k2: Kind, w: string)
    requires Spells(k1, w) && Spells(k2, w)
    ensures k1 == k2
  {
  }

  /** A classified line: its kind and its (up to) three words, missing words
      being `None` (the parser's `cmd_type`, `arg0`, `arg1`, `arg2`). */
  datatype Command = Command(kind: Kind, arg0: string, arg1: Option<string>, arg2: Option<string>)

  /** A third word only ever comes with a second one. */
  predicate WellFormed(c: Command) {
    c.arg2.Some? ==> c.arg1.Some?
  }

  /** The words a command was read from, in order. */
  function Words(c: Command): seq<string> {
    [c.arg0]
    + (if c.arg1.Some? then [c.arg1.value] else [])
    + (if c.arg2.Some? then [c.arg2.value] else [])
  }

  // ---------------------------------------------------------------------------
  // Cleaning (pre_process)
  // ---------------------------------------------------------------------------

  /** `line.split('//')[0].strip()`: the text in front of the first comment
      marker, with only whitespace cut from either side of it. */
  function CleanLine(line: string): (r: string)
    ensures Stripped(r) && !HasComment(r)
    ensures StripsTo(BeforeComment(line), Indent(BeforeComment(line)), r)
  {
    StripKeepsNoComment(BeforeComment(line));
    Strip(BeforeComment(line))
  }

  /** A cleaned line: non-empty, without surrounding whitespace or comment. */
  predicate IsCleanLine(x: string) {
    x != [] && Stripped(x) && !HasComment(x)
  }

  /** What one raw line adds to the queue: its cleaned form, or nothing if
      that is empty. */
  function Keep(line: string): seq<string> {
    var c := CleanLine(line);
    if c != [] then [c] else []
  }

  /** The queue `pre_process` fills: the cleaned form of every line, in
      order, with the lines that clean to nothing dropped. */
  function Clean(lines: seq<string>): seq<string> {
    FlatMap(Keep, lines)
  }

  /** A single raw line becomes one queue entry, its cleaned form, unless
      it is blank or a comment and cleans to nothing. */
  lemma CleanOne(line: string)
    ensures Clean([line]) == (if CleanLine(line) != [] then [CleanLine(line)] else [])
    ensures Clean([line]) == [] <==> AllSpace(BeforeComment(line))
  {
    assert [line][1..] == [];
    assert Clean([line]) == Keep(line) + Clean([]);
    var b := BeforeComment(line);
    var i := Indent(b);
    if CleanLine(line) == [] {
      assert b == b[..i] + b[i..];
    } else {
      assert CleanLine(line)[0] == b[i];
    }
  }

  /** Cleaning never adds lines. */
  lemma {:induction false} CleanShrinks(lines: seq<string>)
    ensures |Clean(lines)| <= |lines|
    decreases |lines|
  {
    if lines != [] {
      assert Clean(lines) == Keep(lines[0]) + Clean(lines[1..]);
      CleanShrinks(lines[1..]);
    }
  }

  /** Every line of the queue is non-empty, stripped and free of comments. */
  lemma {:induction false} CleanLinesAreClean(lines: seq<string>)
    ensures forall i :: 0 <= i < |Clean(lines)| ==> IsCleanLine(Clean(lines)[i])
    decreases |lines|
  {
    if lines != [] {
      var c := CleanLine(lines[0]);
      var rest := Clean(lines[1..]);
      assert Clean(lines) == Keep(lines[0]) + rest;
      CleanLinesAreClean(lines[1..]);
      if c != [] {
        assert Clean(lines) == [c] + rest;
        forall i | 0 <= i < |Clean(lines)| ensures IsCleanLine(Clean(lines)[i]) {
          if i > 0 {
            assert Clean(lines)[i] == rest[i - 1];
          }
        }
      } else {
        assert Clean(lines) == rest;
      }
    }
  }

  /** Cleaning works line by line: it preserves the order of the input. */
  lemma CleanAppend(a: seq<string>, b: seq<string>)
    ensures Clean(a + b) == Clean(a) + Clean(b)
  {
    FlatMapAppend(Keep, a, b);
  }

  /** A line that is already clean is its own cleaned form. */
  lemma CleanLineOfClean(c: string)
    requires IsCleanLine(c)
    ensures CleanLine(c) == c
  {
    assert BeforeComment(c) == c;
    StripStripped(c);
  }

  /** A program whose lines are all clean is left as it is. */
  lemma {:induction false} CleanOfCleanLines(xs: seq<string>)
    requires forall i :: 0 <= i < |xs| ==> IsCleanLine(xs[i])
    ensures Clean(xs) == xs
    decreases |xs|
  {
    if xs != [] {
      CleanLineOfClean(xs[0]);
      CleanOfCleanLines(xs[1..]);
    }
  }

  /** Cleaning a cleaned program changes nothing. */
  lemma CleanIdempotent(lines: seq<string>)
    ensures Clean(Clean(lines)) == Clean(lines)
  {
    CleanLinesAreClean(lines);
    CleanOfCleanLines(Clean(lines));
  }

  /** Every cleaned line has at least one word, so it can be classified. */
  lemma CleanedLinesHaveWords(lines: seq<string>)
    ensures forall x :: x in Clean(lines) ==> Split(x) != []
  {
    CleanLinesAreClean(lines);
    forall x | x in Clean(lines) ensures Split(x) != [] {
      var i :| 0 <= i < |Clean(lines)| && Clean(lines)[i] == x;
      assert IsCleanLine(Clean(lines)[i]);
      assert !IsSpace(x[0]);
    }
  }

  // ---------------------------------------------------------------------------
  // Classification (command_type, cmd_arg1, cmd_arg2)
  // ---------------------------------------------------------------------------

  /** `command_type`: more than three words is an error whatever they are;
      otherwise the first word alone decides the kind, and a first word that
      names no command is an error. */
  function CommandType(line: string): (r: Result<Command, ParseError>)
    requires Split(line) != []
    ensures |Split(line)| > 3 ==> r == Failure(InvalidNumberOfCommands)
    ensures |Split(line)| <= 3 ==>
              (r.Success? <==> IsCommandWord(Split(line)[0]))
    ensures |Split(line)| <= 3 && r.Failure? ==> r.error == InvalidCommandType
    ensures r.Success? ==>
              && WellFormed(r.value)
              && Words(r.value) == Split(line)
              && Spells(r.value.kind, r.value.arg0)
  {
    var words := Split(line);
    if |words| > 3 then Failure(InvalidNumberOfCommands)
    else
      match KindOf(words[0])
      case None => Failure(InvalidCommandType)
      case Some(k) =>
        Success(Command(k, words[0],
                        if |words| > 1 then Some(words[1]) else None,
                        if |words| > 2 then Some(words[2]) else None))
  }

  /** Classifying the space-joined words of a well-formed command gives the
      command back: the classifier loses nothing. */
  lemma ClassifyUnparse(c: Command)
    requires WellFormed(c) && Spells(c.kind, c.arg0)
    requires forall i :: 0 <= i < |Words(c)| ==> IsWord(Words(c)[i])
    ensures Split(Join(Words(c))) == Words(c)
    ensures CommandType(Join(Words(c))) == Success(c)
  {
    SplitJoin(Words(c));
    var r := CommandType(Join(Words(c)));
    assert r.Success?;
    SpellsUnique(r.value.kind, c.kind, c.arg0);
  }

  /** `cmd_arg1`: the command word itself for arithmetic and return, the
      second word for every other kind. */
  function CmdArg1(c: Command): (r: Option<string>)
    ensures c.kind == Arithmetic || c.kind == Return ==> r == Some(Words(c)[0])
    ensures c.kind != Arithmetic && c.kind != Return && WellFormed(c) ==>
              r == (if |Words(c)| > 1 then Some(Words(c)[1]) else None)
  {
    if c.kind == Arithmetic || c.kind == Return then Some(c.arg0) else c.arg1
  }

  /** `cmd_arg2`: the third word, only for the kinds that take a number. */
  function CmdArg2(c: Command): (r: Option<string>)
    ensures r.Some? ==> c.kind in {Push, Pop, Function, Call}
    ensures WellFormed(c) ==>
              r == (if c.kind in {Push, Pop, Function, Call} && |Words(c)| == 3 then Some(Words(c)[2])
                    else None)
  {
    if c.kind in {Push, Pop, Function, Call} then c.arg2 else None
  }

  /** The operands of a classified line, read off the line's own words. */
  lemma OperandsOfLine(line: string)
    requires Split(line) != [] && CommandType(line).Success?
    ensures var c, ws := CommandType(line).value, Split(line);
            && CmdArg1(c) == (if c.kind == Arithmetic || c.kind == Return then Some(ws[0])
                              else if |ws| > 1 then Some(ws[1]) else None)
            && CmdArg2(c) == (if c.kind in {Push, Pop, Function, Call} && |ws| == 3 then Some(ws[2])
                              else None)
  {
  }
}
