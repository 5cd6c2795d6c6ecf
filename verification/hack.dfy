/** A small interpreter for the Hack assembly the code generator emits: the
    handful of instruction forms its templates use, over 16-bit words (with
    the ALU's wrap-around written out) and a RAM that reads 0 where nothing
    was written. Symbols are resolved the way the Hack assembler resolves
    them: decimal constants, the predefined symbols (SP, LCL, ARG, THIS,
    THAT, R0-R15, SCREEN, KBD), and a table `sym` giving the address the
    assembler assigned to every other label or variable.

    `Exec` runs a block of lines. A taken jump to a label declared further
    down the same block continues at that label; any other taken jump leaves
    the block and is reported with its target address. */
module Hack {
  import opened Wrappers
  import opened Text

  /** A 16-bit machine word, held as its unsigned value. */
  newtype Word = x: int | 0 <= x < 0x1_0000

  /** Sum and difference wrap around modulo 2^16, as the ALU's do. */
  function Add(x: Word, y: Word): Word {
    var n := x as int + y as int;
    if n < 0x1_0000 then n as Word else (n - 0x1_0000) as Word
  }

  function Sub(x: Word, y: Word): Word {
    var n := x as int - y as int;
    if n >= 0 then n as Word else (n + 0x1_0000) as Word
  }

  /** Bitwise complement of a 16-bit word. */
  function Not(x: Word): Word {
    0xFFFF - x
  }

  /** Bitwise conjunction of two naturals, bit by bit from the lowest. */
  function BitAnd(x: nat, y: nat): (r: nat)
    ensures r <= x && r <= y
  {
    if x == 0 || y == 0 then 0
    else 2 * BitAnd(x / 2, y / 2) + (if x % 2 == 1 && y % 2 == 1 then 1 else 0)
  }

  function And(x: Word, y: Word): Word {
    BitAnd(x as nat, y as nat) as Word
  }

  /** Bitwise disjunction, by De Morgan's law on 16 bits. */
  function Or(x: Word, y: Word): Word {
    Not(And(Not(x), Not(y)))
  }

  /** The A and D registers and the data memory. */
  datatype State = State(a: Word, d: Word, ram: map<Word, Word>)

  /** RAM[x], 0 where nothing was written. */
  function Read(ram: map<Word, Word>, x: Word): Word {
    if x in ram then ram[x] else 0
  }

  /** RAM with RAM[x] set to v. */
  function Write(ram: map<Word, Word>, x: Word, v: Word): map<Word, Word> {
    ram[x := v]
  }

  /** The stack pointer RAM[0]. */
  function SP(s: State): Word {
    Read(s.ram, 0)
  }

  /** The named symbols every Hack program starts with. */
  const Predefined: map<string, Word> := map[
    "SP" := 0, "LCL" := 1, "ARG" := 2, "THIS" := 3, "THAT" := 4,
    "SCREEN" := 0x4000, "KBD" := 0x6000
  ]

  /** The virtual registers `R0` ... `R15`, written without leading zeros. */
  function Register(x: string): Option<Word> {
    if |x| >= 2 && x[0] == 'R' && IsDigits(x[1..]) && ParseNat(x[1..]) < 16
       && NatToString(ParseNat(x[1..])) == x[1..]
    then Some(ParseNat(x[1..]) as Word)
    else None
  }

  /** The value `@x` loads into A: a decimal constant below 2^15, a
      predefined symbol, or an address from `sym`. */
  function Resolve(x: string, sym: map<string, Word>): Option<Word> {
    if x != [] && IsDigits(x) then
      if ParseNat(x) < 0x8000 then Some(ParseNat(x) as Word) else None
    else if Register(x).Some? then Register(x)
    else if x in Predefined then Some(Predefined[x])
    else if x in sym then Some(sym[x])
    else None
  }

  /** The computations the templates use. */
  datatype Comp =
    | Zero | MinusOne | DReg | AReg | MReg
    | NotM | NegM | DPlusOne | MPlusOne | MMinusOne
    | DPlusA | DMinusA | MMinusD | MPlusD | MAndD | MOrD

  /** Which registers a computation is stored into. */
  datatype Dest = Dest(toA: bool, toD: bool, toM: bool)

  /** The jump conditions, on the computed value read as a signed number. */
  datatype Jump = NoJump | JEQ | JNE | JGT | JLT | JMP

  /** One decoded line. */
  datatype Instr =
    | Skip                                   // a comment or a label declaration
    | Load(symbol: string)                   // @symbol
    | Compute(dest: Dest, comp: Comp, jump: Jump)
    | Unknown

  /** The line without the one trailing newline some templates end in. */
  function Code(line: string): string {
    if line != [] && line[|line| - 1] == '\n' then line[..|line| - 1] else line
  }

  /** The label a line `(name)` declares. */
  function DeclaredName(line: string): Option<string> {
    var t := Code(line);
    if |t| >= 2 && t[0] == '(' && t[|t| - 1] == ')' then Some(t[1..|t| - 1]) else None
  }

  const NoDest := Dest(false, false, false)
  const ToA := Dest(true, false, false)
  const ToD := Dest(false, true, false)
  const ToM := Dest(false, false, true)
  const ToAM := Dest(true, false, true)

  /** The compute instructions, written as the templates write them. */
  function DecodeCompute(t: string): Instr {
    if t == "A=M" then Compute(ToA, MReg, NoJump)
    else if t == "D=A" then Compute(ToD, AReg, NoJump)
    else if t == "D=M" then Compute(ToD, MReg, NoJump)
    else if t == "M=D" then Compute(ToM, DReg, NoJump)
    else if t == "D=0" then Compute(ToD, Zero, NoJump)
    else if t == "D=-1" then Compute(ToD, MinusOne, NoJump)
    else if t == "M=-M" then Compute(ToM, NegM, NoJump)
    else if t == "M=!M" then Compute(ToM, NotM, NoJump)
    else if t == "M=D+1" then Compute(ToM, DPlusOne, NoJump)
    else if t == "M=M+1" then Compute(ToM, MPlusOne, NoJump)
    else if t == "M=M-1" then Compute(ToM, MMinusOne, NoJump)
    else if t == "AM=M-1" then Compute(ToAM, MMinusOne, NoJump)
    else if t == "A=D+A" then Compute(ToA, DPlusA, NoJump)
    else if t == "D=D+A" then Compute(ToD, DPlusA, NoJump)
    else if t == "A=D-A" then Compute(ToA, DMinusA, NoJump)
    else if t == "D=M-D" then Compute(ToD, MMinusD, NoJump)
    else if t == "M=M-D" then Compute(ToM, MMinusD, NoJump)
    else if t == "M=M+D" then Compute(ToM, MPlusD, NoJump)
    else if t == "M=M&D" then Compute(ToM, MAndD, NoJump)
    else if t == "M=M|D" then Compute(ToM, MOrD, NoJump)
    else if t == "0;JMP" then Compute(NoDest, Zero, JMP)
    else if t == "D;JEQ" then Compute(NoDest, DReg, JEQ)
    else if t == "D;JNE" then Compute(NoDest, DReg, JNE)
    else if t == "D;JGT" then Compute(NoDest, DReg, JGT)
    else if t == "D;JLT" then Compute(NoDest, DReg, JLT)
    else Unknown
  }

  function Decode(line: string): Instr {
    var t := Code(line);
    if |t| >= 2 && t[0] == '/' && t[1] == '/' then Skip
    else if DeclaredName(line).Some? then Skip
    else if t != [] && t[0] == '@' then Load(t[1..])
    else DecodeCompute(t)
  }

  /** `w` read as a two's-complement number is negative. */
  predicate Negative(w: Word) {
    w >= 0x8000
  }

  function Eval(c: Comp, s: State): Word {
    var m := Read(s.ram, s.a);
    match c
    case Zero => 0
    case MinusOne => 0xFFFF
    case DReg => s.d
    case AReg => s.a
    case MReg => m
    case NotM => Not(m)
    case NegM => Sub(0, m)
    case DPlusOne => Add(s.d, 1)
    case MPlusOne => Add(m, 1)
    case MMinusOne => Sub(m, 1)
    case DPlusA => Add(s.d, s.a)
    case DMinusA => Sub(s.d, s.a)
    case MMinusD => Sub(m, s.d)
    case MPlusD => Add(m, s.d)
    case MAndD => And(m, s.d)
    case MOrD => Or(m, s.d)
  }

  predicate Taken(j: Jump, v: Word) {
    match j
    case NoJump => false
    case JEQ => v == 0
    case JNE => v != 0
    case JGT => !Negative(v) && v != 0
    case JLT => Negative(v)
    case JMP => true
  }

  /** What one line does. */
  datatype StepResult = Next(s: State) | Branch(s: State, target: Word) | Fault

  function Step(line: string, sym: map<string, Word>, s: State): StepResult {
    match Decode(line)
    case Skip => Next(s)
    case Unknown => Fault
    case Load(x) =>
      (match Resolve(x, sym)
       case None => Fault
       case Some(v) => Next(s.(a := v)))
    case Compute(dest, comp, jump) =>
      var v := Eval(comp, s);
      var s' := State(if dest.toA then v else s.a,
                      if dest.toD then v else s.d,
                      if dest.toM then Write(s.ram, s.a, v) else s.ram);
      if Taken(jump, v) then Branch(s', s.a) else Next(s')
  }

  /** The first line of `lines` that declares a label at address `target`. */
  function FindLabel(lines: seq<string>, sym: map<string, Word>, target: Word): (r: Option<nat>)
    ensures r.Some? ==> r.value < |lines|
  {
    if lines == [] then None
    else if DeclaredName(lines[0]).Some? && DeclaredName(lines[0]).value in sym
            && sym[DeclaredName(lines[0]).value] == target then Some(0)
    else match FindLabel(lines[1..], sym, target)
      case None => None
      case Some(k) => Some(k + 1)
  }

  /** How running a block ends. */
  datatype Outcome =
    | Fell(s: State)                   // ran off the end of the block
    | Jumped(s: State, target: Word)   // jumped out of the block
    | Stuck                            // met a line it cannot execute

  function Exec(lines: seq<string>, sym: map<string, Word>, s: State): Outcome
    decreases |lines|
  {
    if lines == [] then Fell(s)
    else
      match Step(lines[0], sym, s)
      case Fault => Stuck
      case Next(s') => Exec(lines[1..], sym, s')
      case Branch(s', target) =>
        match FindLabel(lines[1..], sym, target)
        case None => Jumped(s', target)
        case Some(k) => Exec(lines[1..][k..], sym, s')
  }
}
