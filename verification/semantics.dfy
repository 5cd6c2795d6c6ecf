/** What the generated code does when the Hack machine runs it: the stack
    effect of every template, stated on the machine state of the `Hack`
    interpreter. A state is `Sane` when the stack pointer lies above the
    registers and below the screen, as the bootstrap code leaves it. */
module Semantics {
  import opened Wrappers
  import opened Text
  import opened Hack
  import opened CodeWriter
  import opened Labels

  // ---------------------------------------------------------------------------
  // Decoding the lines the templates use
  // ---------------------------------------------------------------------------

  /** `@x` loads the symbol `x`. */
  lemma DecodeLoad(line: string, x: string)
    requires line == "@" + x && (x == [] || x[|x| - 1] != '\n')
    ensures Decode(line) == Load(x)
  {
    assert Code(line) == line;
    assert line[1..] == x;
  }

  /** A line starting with `//` is a comment. */
  lemma DecodeComment(line: string)
    requires |line| >= 2 && line[0] == '/' && line[1] == '/'
    ensures Decode(line) == Skip
  {
  }

  /** A label declaration is skipped when run. */
  lemma DecodeDecl(line: string, name: string)
    requires line == "(" + name + ")" || line == "(" + name + ")\n"
    ensures Decode(line) == Skip
  {
    var t := "(" + name + ")";
    assert "(" + name + ")\n" == t + "\n";
    assert Code(t + "\n") == t;
    assert t[1..|t| - 1] == name;
  }

  // One lemma per compute instruction the templates write. Each takes the
  // line as a parameter, so that callers see only its decoded form.

  lemma DecodeAEqM(line: string)
    requires line == "A=M"
    ensures Decode(line) == Compute(ToA, MReg, NoJump)
  {
  }

  lemma DecodeDEqA(line: string)
    requires line == "D=A"
    ensures Decode(line) == Compute(ToD, AReg, NoJump)
  {
  }

  lemma DecodeDEqM(line: string)
    requires line == "D=M" || line == "D=M\n"
    ensures Decode(line) == Compute(ToD, MReg, NoJump)
  {
    assert Code("D=M\n") == "D=M";
  }

  lemma DecodeMEqD(line: string)
    requires line == "M=D" || line == "M=D\n"
    ensures Decode(line) == Compute(ToM, DReg, NoJump)
  {
    assert Code("M=D\n") == "M=D";
  }

  lemma DecodeIncM(line: string)
    requires line == "M=M+1\n"
    ensures Decode(line) == Compute(ToM, MPlusOne, NoJump)
  {
    assert Code("M=M+1\n") == "M=M+1";
  }

  lemma DecodeDecM(line: string)
    requires line == "M=M-1"
    ensures Decode(line) == Compute(ToM, MMinusOne, NoJump)
  {
  }

  lemma DecodeDecAM(line: string)
    requires line == "AM=M-1"
    ensures Decode(line) == Compute(ToAM, MMinusOne, NoJump)
  {
  }

  lemma DecodeMEqDPlusOne(line: string)
    requires line == "M=D+1\n"
    ensures Decode(line) == Compute(ToM, DPlusOne, NoJump)
  {
    assert Code("M=D+1\n") == "M=D+1";
  }

  lemma DecodeAEqDPlusA(line: string)
    requires line == "A=D+A"
    ensures Decode(line) == Compute(ToA, DPlusA, NoJump)
  {
  }

  lemma DecodeDEqDPlusA(line: string)
    requires line == "D=D+A"
    ensures Decode(line) == Compute(ToD, DPlusA, NoJump)
  {
  }

  lemma DecodeAEqDMinusA(line: string)
    requires line == "A=D-A"
    ensures Decode(line) == Compute(ToA, DMinusA, NoJump)
  {
  }

  lemma DecodeDEqMMinusD(line: string)
    requires line == "D=M-D"
    ensures Decode(line) == Compute(ToD, MMinusD, NoJump)
  {
  }

  lemma DecodeMEqMMinusD(line: string)
    requires line == "M=M-D"
    ensures Decode(line) == Compute(ToM, MMinusD, NoJump)
  {
  }

  lemma DecodeMEqMAndD(line: string)
    requires line == "M=M&D"
    ensures Decode(line) == Compute(ToM, MAndD, NoJump)
  {
  }

  lemma DecodeMEqMOrD(line: string)
    requires line == "M=M|D"
    ensures Decode(line) == Compute(ToM, MOrD, NoJump)
  {
  }

  lemma DecodeNegM(line: string)
    requires line == "M=-M"
    ensures Decode(line) == Compute(ToM, NegM, NoJump)
  {
  }

  lemma DecodeNotM(line: string)
    requires line == "M=!M"
    ensures Decode(line) == Compute(ToM, NotM, NoJump)
  {
  }

  lemma DecodeDZero(line: string)
    requires line == "D=0"
    ensures Decode(line) == Compute(ToD, Zero, NoJump)
  {
  }

  lemma DecodeDMinusOne(line: string)
    requires line == "D=-1"
    ensures Decode(line) == Compute(ToD, MinusOne, NoJump)
  {
  }

  lemma DecodeJmp(line: string)
    requires line == "0;JMP" || line == "0;JMP\n"
    ensures Decode(line) == Compute(NoDest, Zero, JMP)
  {
    assert Code(line) == "0;JMP" by {
      if line == "0;JMP\n" {
        assert line[..|line| - 1] == "0;JMP";
      }
    }
    assert DeclaredName(line) == None;
  }

  lemma DecodeJne(line: string)
    requires line == "D;JNE\n"
    ensures Decode(line) == Compute(NoDest, DReg, JNE)
  {
    assert Code("D;JNE\n") == "D;JNE";
  }

  lemma DecodeJeq(line: string)
    requires line == "D;JEQ"
    ensures Decode(line) == Compute(NoDest, DReg, JEQ)
  {
  }

  lemma DecodeJgt(line: string)
    requires line == "D;JGT"
    ensures Decode(line) == Compute(NoDest, DReg, JGT)
  {
  }

  lemma DecodeJlt(line: string)
    requires line == "D;JLT"
    ensures Decode(line) == Compute(NoDest, DReg, JLT)
  {
  }

  // ---------------------------------------------------------------------------
  // Resolving symbols
  // ---------------------------------------------------------------------------

  /** A decimal constant below 2^15 loads its own value. */
  lemma ResolveNat(n: nat, sym: map<string, Word>)
    requires n < 0x8000
    ensures Resolve(NatToString(n), sym) == Some(n as Word)
  {
    ParseNatToString(n);
  }

  /** `R<n>` names register `n`. */
  lemma ResolveRegister(n: nat, sym: map<string, Word>)
    requires n < 16
    ensures Resolve("R" + NatToString(n), sym) == Some(n as Word)
  {
    var x := "R" + NatToString(n);
    assert x[1..] == NatToString(n);
    ParseNatToString(n);
    assert !IsDigit(x[0]);
  }

  lemma ResolveSP(sym: map<string, Word>)
    ensures Resolve("SP", sym) == Some(0)
  {
    assert !IsDigit("SP"[0]);
  }

  /** The address a base-pointer symbol of `_segment_asm` names. */
  function PointerAddress(symbol: string): Word {
    if symbol == "LCL" then 1 else if symbol == "ARG" then 2 else if symbol == "THIS" then 3 else 4
  }

  lemma ResolvePointer(symbol: string, sym: map<string, Word>)
    requires symbol in {"LCL", "ARG", "THIS", "THAT"}
    ensures Resolve(symbol, sym) == Some(PointerAddress(symbol))
    ensures 1 <= PointerAddress(symbol) <= 4
  {
    assert !IsDigit(symbol[0]) && symbol[0] != 'R';
  }

  lemma ResolveSegment(segment: string, sym: map<string, Word>)
    requires segment in PointerSegments
    ensures Resolve(SegmentAsm[segment].symbol, sym) == Some(PointerAddress(SegmentAsm[segment].symbol))
    ensures 1 <= PointerAddress(SegmentAsm[segment].symbol) <= 4
  {
    ResolvePointer(SegmentAsm[segment].symbol, sym);
  }

  /** A static variable resolves to the address the assembler gave it. */
  lemma ResolveStatic(fileName: string, offset: nat, sym: map<string, Word>)
    requires StaticSymbol(fileName, offset) in sym
    ensures Resolve(StaticSymbol(fileName, offset), sym) == Some(sym[StaticSymbol(fileName, offset)])
  {
    var x := StaticSymbol(fileName, offset);
    var p := Before(fileName, '.');
    assert x[|p|] == '.';
    assert !IsDigit(x[|p|]);
    assert '.' in x;
    assert forall k :: k in Predefined ==> '.' !in k;
  }

  // ---------------------------------------------------------------------------
  // Running a block line by line
  // ---------------------------------------------------------------------------

  /** The state after a compute instruction that does not jump. */
  function Apply(dest: Dest, v: Word, s: State): State {
    State(if dest.toA then v else s.a,
          if dest.toD then v else s.d,
          if dest.toM then Write(s.ram, s.a, v) else s.ram)
  }

  lemma ExecSkip(lines: seq<string>, i: nat, sym: map<string, Word>, s: State)
    requires i < |lines| && Decode(lines[i]) == Skip
    ensures Exec(lines[i..], sym, s) == Exec(lines[i + 1..], sym, s)
  {
    assert lines[i..][1..] == lines[i + 1..];
  }

  lemma ExecCompute(lines: seq<string>, i: nat, sym: map<string, Word>, s: State, dest: Dest, comp: Comp)
    requires i < |lines| && Decode(lines[i]) == Compute(dest, comp, NoJump)
    ensures Exec(lines[i..], sym, s) == Exec(lines[i + 1..], sym, Apply(dest, Eval(comp, s), s))
  {
    assert lines[i..][1..] == lines[i + 1..];
  }

  lemma ExecLoad(lines: seq<string>, i: nat, sym: map<string, Word>, s: State, x: string, v: Word)
    requires i < |lines| && Decode(lines[i]) == Load(x) && Resolve(x, sym) == Some(v)
    ensures Exec(lines[i..], sym, s) == Exec(lines[i + 1..], sym, s.(a := v))
  {
    assert lines[i..][1..] == lines[i + 1..];
  }

  lemma ReadWrite(ram: map<Word, Word>, p: Word, q: Word, v: Word)
    ensures Read(Write(ram, p, v), q) == if p == q then v else Read(ram, q)
  {
  }

  // What each compute instruction does to the state.

  lemma AEqMAt(lines: seq<string>, i: nat, sym: map<string, Word>, s: State)
    requires i < |lines| && lines[i] == "A=M"
    ensures Exec(lines[i..], sym, s) == Exec(lines[i + 1..], sym, s.(a := Read(s.ram, s.a)))
  {
    DecodeAEqM(lines[i]);
    ExecCompute(lines, i, sym, s, ToA, MReg);
    ApplyAEqM(s);
  }

  lemma ApplyAEqM(s: State)
    ensures Apply(ToA, Eval(MReg, s), s) == s.(a := Read(s.ram, s.a))
  {
  }

  lemma DEqAAt(lines: seq<string>, i: nat, sym: map<string, Word>, s: State)
    requires i < |lines| && lines[i] == "D=A"
    ensures Exec(lines[i..], sym, s) == Exec(lines[i + 1..], sym, s.(d := s.a))
  {
    DecodeDEqA(lines[i]);
    ExecCompute(lines, i, sym, s, ToD, AReg);
    ApplyDEqA(s);
  }

  lemma ApplyDEqA(s: State)
    ensures Apply(ToD, Eval(AReg, s), s) == s.(d := s.a)
  {
  }

  lemma DEqMAt(lines: seq<string>, i: nat, sym: map<string, Word>, s: State)
    requires i < |lines| && (lines[i] == "D=M" || lines[i] == "D=M\n")
    ensures Exec(lines[i..], sym, s) == Exec(lines[i + 1..], sym, s.(d := Read(s.ram, s.a)))
  {
    DecodeDEqM(lines[i]);
    ExecCompute(lines, i, sym, s, ToD, MReg);
    ApplyDEqM(s);
  }

  lemma ApplyDEqM(s: State)
    ensures Apply(ToD, Eval(MReg, s), s) == s.(d := Read(s.ram, s.a))
  {
  }

  lemma MEqDAt(lines: seq<string>, i: nat, sym: map<string, Word>, s: State)
    requires i < |lines| && (lines[i] == "M=D" || lines[i] == "M=D\n")
    ensures Exec(lines[i..], sym, s) == Exec(lines[i + 1..], sym, s.(ram := Write(s.ram, s.a, s.d)))
  {
    DecodeMEqD(lines[i]);
    ExecCompute(lines, i, sym, s, ToM, DReg);
    ApplyMEqD(s);
  }

  lemma ApplyMEqD(s: State)
    ensures Apply(ToM, Eval(DReg, s), s) == s.(ram := Write(s.ram, s.a, s.d))
  {
  }

  lemma IncMAt(lines: seq<string>, i: nat, sym: map<string, Word>, s: State)
    requires i < |lines| && lines[i] == "M=M+1\n"
    ensures Exec(lines[i..], sym, s) == Exec(lines[i + 1..], sym, s.(ram := Write(s.ram, s.a, Add(Read(s.ram, s.a), 1))))
  {
    DecodeIncM(lines[i]);
    ExecCompute(lines, i, sym, s, ToM, MPlusOne);
    ApplyIncM(s);
  }

  lemma ApplyIncM(s: State)
    ensures Apply(ToM, Eval(MPlusOne, s), s) == s.(ram := Write(s.ram, s.a, Add(Read(s.ram, s.a), 1)))
  {
  }

  lemma DecMAt(lines: seq<string>, i: nat, sym: map<string, Word>, s: State)
    requires i < |lines| && lines[i] == "M=M-1"
    ensures Exec(lines[i..], sym, s) == Exec(lines[i + 1..], sym, s.(ram := Write(s.ram, s.a, Sub(Read(s.ram, s.a), 1))))
  {
    DecodeDecM(lines[i]);
    ExecCompute(lines, i, sym, s, ToM, MMinusOne);
    ApplyDecM(s);
  }

  lemma ApplyDecM(s: State)
    ensures Apply(ToM, Eval(MMinusOne, s), s) == s.(ram := Write(s.ram, s.a, Sub(Read(s.ram, s.a), 1)))
  {
  }

  lemma DecAMAt(lines: seq<string>, i: nat, sym: map<string, Word>, s: State)
    requires i < |lines| && lines[i] == "AM=M-1"
    ensures Exec(lines[i..], sym, s) == Exec(lines[i + 1..], sym, s.(a := Sub(Read(s.ram, s.a), 1), ram := Write(s.ram, s.a, Sub(Read(s.ram, s.a), 1))))
  {
    DecodeDecAM(lines[i]);
    ExecCompute(lines, i, sym, s, ToAM, MMinusOne);
    ApplyDecAM(s);
  }

  lemma ApplyDecAM(s: State)
    ensures Apply(ToAM, Eval(MMinusOne, s), s) == s.(a := Sub(Read(s.ram, s.a), 1), ram := Write(s.ram, s.a, Sub(Read(s.ram, s.a), 1)))
  {
  }

  lemma MEqDPlusOneAt(lines: seq<string>, i: nat, sym: map<string, Word>, s: State)
    requires i < |lines| && lines[i] == "M=D+1\n"
    ensures Exec(lines[i..], sym, s) == Exec(lines[i + 1..], sym, s.(ram := Write(s.ram, s.a, Add(s.d, 1))))
  {
    DecodeMEqDPlusOne(lines[i]);
    ExecCompute(lines, i, sym, s, ToM, DPlusOne);
    ApplyMEqDPlusOne(s);
  }

  lemma ApplyMEqDPlusOne(s: State)
    ensures Apply(ToM, Eval(DPlusOne, s), s) == s.(ram := Write(s.ram, s.a, Add(s.d, 1)))
  {
  }

  lemma AEqDPlusAAt(lines: seq<string>, i: nat, sym: map<string, Word>, s: State)
    requires i < |lines| && lines[i] == "A=D+A"
    ensures Exec(lines[i..], sym, s) == Exec(lines[i + 1..], sym, s.(a := Add(s.d, s.a)))
  {
    DecodeAEqDPlusA(lines[i]);
    ExecCompute(lines, i, sym, s, ToA, DPlusA);
    ApplyAEqDPlusA(s);
  }

  lemma ApplyAEqDPlusA(s: State)
    ensures Apply(ToA, Eval(DPlusA, s), s) == s.(a := Add(s.d, s.a))
  {
  }

  lemma DEqDPlusAAt(lines: seq<string>, i: nat, sym: map<string, Word>, s: State)
    requires i < |lines| && lines[i] == "D=D+A"
    ensures Exec(lines[i..], sym, s) == Exec(lines[i + 1..], sym, s.(d := Add(s.d, s.a)))
  {
    DecodeDEqDPlusA(lines[i]);
    ExecCompute(lines, i, sym, s, ToD, DPlusA);
    ApplyDEqDPlusA(s);
  }

  lemma ApplyDEqDPlusA(s: State)
    ensures Apply(ToD, Eval(DPlusA, s), s) == s.(d := Add(s.d, s.a))
  {
  }

  lemma AEqDMinusAAt(lines: seq<string>, i: nat, sym: map<string, Word>, s: State)
    requires i < |lines| && lines[i] == "A=D-A"
    ensures Exec(lines[i..], sym, s) == Exec(lines[i + 1..], sym, s.(a := Sub(s.d, s.a)))
  {
    DecodeAEqDMinusA(lines[i]);
    ExecCompute(lines, i, sym, s, ToA, DMinusA);
    ApplyAEqDMinusA(s);
  }

  lemma ApplyAEqDMinusA(s: State)
    ensures Apply(ToA, Eval(DMinusA, s), s) == s.(a := Sub(s.d, s.a))
  {
  }

  lemma DEqMMinusDAt(lines: seq<string>, i: nat, sym: map<string, Word>, s: State)
    requires i < |lines| && lines[i] == "D=M-D"
    ensures Exec(lines[i..], sym, s) == Exec(lines[i + 1..], sym, s.(d := Sub(Read(s.ram, s.a), s.d)))
  {
    DecodeDEqMMinusD(lines[i]);
    ExecCompute(lines, i, sym, s, ToD, MMinusD);
    ApplyDEqMMinusD(s);
  }

  lemma ApplyDEqMMinusD(s: State)
    ensures Apply(ToD, Eval(MMinusD, s), s) == s.(d := Sub(Read(s.ram, s.a), s.d))
  {
  }

  lemma MEqMMinusDAt(lines: seq<string>, i: nat, sym: map<string, Word>, s: State)
    requires i < |lines| && lines[i] == "M=M-D"
    ensures Exec(lines[i..], sym, s) == Exec(lines[i + 1..], sym, s.(ram := Write(s.ram, s.a, Sub(Read(s.ram, s.a), s.d))))
  {
    DecodeMEqMMinusD(lines[i]);
    ExecCompute(lines, i, sym, s, ToM, MMinusD);
    ApplyMEqMMinusD(s);
  }

  lemma ApplyMEqMMinusD(s: State)
    ensures Apply(ToM, Eval(MMinusD, s), s) == s.(ram := Write(s.ram, s.a, Sub(Read(s.ram, s.a), s.d)))
  {
  }

  lemma MEqMAndDAt(lines: seq<string>, i: nat, sym: map<string, Word>, s: State)
    requires i < |lines| && lines[i] == "M=M&D"
    ensures Exec(lines[i..], sym, s) == Exec(lines[i + 1..], sym, s.(ram := Write(s.ram, s.a, And(Read(s.ram, s.a), s.d))))
  {
    DecodeMEqMAndD(lines[i]);
    ExecCompute(lines, i, sym, s, ToM, MAndD);
    ApplyMEqMAndD(s);
  }

  lemma ApplyMEqMAndD(s: State)
    ensures Apply(ToM, Eval(MAndD, s), s) == s.(ram := Write(s.ram, s.a, And(Read(s.ram, s.a), s.d)))
  {
  }

  lemma MEqMOrDAt(lines: seq<string>, i: nat, sym: map<string, Word>, s: State)
    requires i < |lines| && lines[i] == "M=M|D"
    ensures Exec(lines[i..], sym, s) == Exec(lines[i + 1..], sym, s.(ram := Write(s.ram, s.a, Or(Read(s.ram, s.a), s.d))))
  {
    DecodeMEqMOrD(lines[i]);
    ExecCompute(lines, i, sym, s, ToM, MOrD);
    ApplyMEqMOrD(s);
  }

  lemma ApplyMEqMOrD(s: State)
    ensures Apply(ToM, Eval(MOrD, s), s) == s.(ram := Write(s.ram, s.a, Or(Read(s.ram, s.a), s.d)))
  {
  }

  lemma NegMAt(lines: seq<string>, i: nat, sym: map<string, Word>, s: State)
    requires i < |lines| && lines[i] == "M=-M"
    ensures Exec(lines[i..], sym, s) == Exec(lines[i + 1..], sym, s.(ram := Write(s.ram, s.a, Sub(0, Read(s.ram, s.a)))))
  {
    DecodeNegM(lines[i]);
    ExecCompute(lines, i, sym, s, ToM, NegM);
    ApplyNegM(s);
  }

  lemma ApplyNegM(s: State)
    ensures Apply(ToM, Eval(NegM, s), s) == s.(ram := Write(s.ram, s.a, Sub(0, Read(s.ram, s.a))))
  {
  }

  lemma NotMAt(lines: seq<string>, i: nat, sym: map<string, Word>, s: State)
    requires i < |lines| && lines[i] == "M=!M"
    ensures Exec(lines[i..], sym, s) == Exec(lines[i + 1..], sym, s.(ram := Write(s.ram, s.a, Not(Read(s.ram, s.a)))))
  {
    DecodeNotM(lines[i]);
    ExecCompute(lines, i, sym, s, ToM, NotM);
    ApplyNotM(s);
  }

  lemma ApplyNotM(s: State)
    ensures Apply(ToM, Eval(NotM, s), s) == s.(ram := Write(s.ram, s.a, Not(Read(s.ram, s.a))))
  {
  }

  lemma DZeroAt(lines: seq<string>, i: nat, sym: map<string, Word>, s: State)
    requires i < |lines| && lines[i] == "D=0"
    ensures Exec(lines[i..], sym, s) == Exec(lines[i + 1..], sym, s.(d := 0))
  {
    DecodeDZero(lines[i]);
    ExecCompute(lines, i, sym, s, ToD, Zero);
    ApplyDZero(s);
  }

  lemma ApplyDZero(s: State)
    ensures Apply(ToD, Eval(Zero, s), s) == s.(d := 0)
  {
  }

  lemma DMinusOneAt(lines: seq<string>, i: nat, sym: map<string, Word>, s: State)
    requires i < |lines| && lines[i] == "D=-1"
    ensures Exec(lines[i..], sym, s) == Exec(lines[i + 1..], sym, s.(d := 0xFFFF))
  {
    DecodeDMinusOne(lines[i]);
    ExecCompute(lines, i, sym, s, ToD, MinusOne);
    ApplyDMinusOne(s);
  }

  lemma ApplyDMinusOne(s: State)
    ensures Apply(ToD, Eval(MinusOne, s), s) == s.(d := 0xFFFF)
  {
  }

  // ---------------------------------------------------------------------------
  // Comments, labels and loads
  // ---------------------------------------------------------------------------

  /** A line the machine skips as a comment. */
  predicate IsComment(line: string) {
    |line| >= 2 && line[0] == '/' && line[1] == '/'
  }

  /** `@x` for a symbol that does not end the line. */
  predicate LoadsSymbol(line: string, x: string) {
    line == "@" + x && (x == [] || x[|x| - 1] != '\n')
  }

  lemma CommentAt(lines: seq<string>, i: nat, sym: map<string, Word>, s: State)
    requires i < |lines| && IsComment(lines[i])
    ensures Exec(lines[i..], sym, s) == Exec(lines[i + 1..], sym, s)
  {
    DecodeComment(lines[i]);
    ExecSkip(lines, i, sym, s);
  }

  lemma DeclAt(lines: seq<string>, i: nat, name: string, sym: map<string, Word>, s: State)
    requires i < |lines| && (lines[i] == "(" + name + ")" || lines[i] == "(" + name + ")\n")
    ensures Exec(lines[i..], sym, s) == Exec(lines[i + 1..], sym, s)
  {
    DecodeDecl(lines[i], name);
    ExecSkip(lines, i, sym, s);
  }

  lemma LoadAt(lines: seq<string>, i: nat, x: string, v: Word, sym: map<string, Word>, s: State)
    requires i < |lines| && LoadsSymbol(lines[i], x) && Resolve(x, sym) == Some(v)
    ensures Exec(lines[i..], sym, s) == Exec(lines[i + 1..], sym, s.(a := v))
  {
    DecodeLoad(lines[i], x);
    ExecLoad(lines, i, sym, s, x, v);
  }

  lemma LoadNatAt(lines: seq<string>, i: nat, n: nat, sym: map<string, Word>, s: State)
    requires i < |lines| && lines[i] == "@" + NatToString(n) && n < 0x8000
    ensures Exec(lines[i..], sym, s) == Exec(lines[i + 1..], sym, s.(a := n as Word))
  {
    DecodeLoad(lines[i], NatToString(n));
    ResolveNat(n, sym);
    ExecLoad(lines, i, sym, s, NatToString(n), n as Word);
  }

  lemma LoadSPAt(lines: seq<string>, i: nat, sym: map<string, Word>, s: State)
    requires i < |lines| && lines[i] == "@SP"
    ensures Exec(lines[i..], sym, s) == Exec(lines[i + 1..], sym, s.(a := 0))
  {
    assert LoadsSymbol(lines[i], "SP");
    ResolveSP(sym);
    LoadAt(lines, i, "SP", 0, sym, s);
  }

  /** The scratch registers R13-R15 resolve to their own numbers. */
  lemma ResolveScratch(x: string, n: nat, sym: map<string, Word>)
    requires (x == "R13" && n == 13) || (x == "R14" && n == 14) || (x == "R15" && n == 15)
    ensures Resolve(x, sym) == Some(n as Word)
  {
    assert NatToString(n) == NatToString(1) + [Digit(n - 10)];
    assert x == "R" + NatToString(n);
    ResolveRegister(n, sym);
  }

  /** `@R13`, `@R14` or `@R15`. */
  lemma LoadScratchAt(lines: seq<string>, i: nat, n: nat, sym: map<string, Word>, s: State)
    requires i < |lines|
    requires (lines[i] == "@R13" && n == 13) || (lines[i] == "@R14" && n == 14) || (lines[i] == "@R15" && n == 15)
    ensures Exec(lines[i..], sym, s) == Exec(lines[i + 1..], sym, s.(a := n as Word))
  {
    var x := lines[i][1..];
    assert LoadsSymbol(lines[i], x);
    ResolveScratch(x, n, sym);
    LoadAt(lines, i, x, n as Word, sym, s);
  }

  lemma LoadsPointer(base: string)
    requires base in {"LCL", "ARG", "THIS", "THAT"}
    ensures LoadsSymbol("@" + base, base)
  {
  }

  lemma LoadsRegister(n: nat)
    ensures LoadsSymbol("@" + ("R" + NatToString(n)), "R" + NatToString(n))
  {
    var x := "R" + NatToString(n);
    assert x[|x| - 1] == NatToString(n)[|NatToString(n)| - 1];
  }

  lemma LoadsStatic(fileName: string, offset: nat)
    ensures LoadsSymbol("@" + StaticSymbol(fileName, offset), StaticSymbol(fileName, offset))
  {
    var x := StaticSymbol(fileName, offset);
    assert x[|x| - 1] == NatToString(offset)[|NatToString(offset)| - 1];
  }

  // ---------------------------------------------------------------------------
  // The stack
  // ---------------------------------------------------------------------------

  /** The stack pointer lies above the sixteen registers, low enough that
      growing the stack by a few words cannot wrap around. */
  predicate Sane(s: State) {
    256 <= SP(s) as int < 0x4000
  }

  /** RAM of `s'` agrees with RAM of `s` outside `changed`. */
  ghost predicate SameExcept(s: State, s': State, changed: set<Word>) {
    forall x :: x !in changed ==> Read(s'.ram, x) == Read(s.ram, x)
  }

  /** The value on top of the stack. */
  function Top(s: State): Word {
    Read(s.ram, Sub(SP(s), 1))
  }

  /** `s'` is `s` with `v` pushed: the value sits at the old stack pointer,
      the stack pointer is one higher, and nothing else in RAM changed. */
  ghost predicate Pushed(s: State, s': State, v: Word) {
    && SP(s') as int == SP(s) as int + 1
    && Read(s'.ram, SP(s)) == v
    && SameExcept(s, s', {0, SP(s)})
  }

  /** `s'` is `s` with the top popped into `x`: the stack pointer is one
      lower, `x` holds the old top, and RAM changed nowhere else but in the
      scratch registers. */
  ghost predicate Popped(s: State, s': State, x: Word, scratch: set<Word>) {
    && SP(s') as int == SP(s) as int - 1
    && Read(s'.ram, x) == Top(s)
    && SameExcept(s, s', {0, x} + scratch)
  }

  lemma PushedSameRam(s: State, t: State, s': State, v: Word)
    requires s.ram == t.ram && Pushed(s, s', v)
    ensures Pushed(t, s', v)
  {
  }

  /** `@SP`, `M=M+1`: the stack pointer one higher. */
  function IncSP(s: State): State {
    s.(a := 0, ram := Write(s.ram, 0, Add(SP(s), 1)))
  }

  /** `@SP`, `AM=M-1`: the stack pointer one lower, and A pointing at the
      cell it now names. */
  function DecSP(s: State): State {
    s.(a := Sub(SP(s), 1), ram := Write(s.ram, 0, Sub(SP(s), 1)))
  }

  lemma IncSPAt(lines: seq<string>, i: nat, sym: map<string, Word>, s: State)
    requires i + 2 <= |lines| && lines[i] == "@SP" && lines[i + 1] == "M=M+1\n"
    ensures Exec(lines[i..], sym, s) == Exec(lines[i + 2..], sym, IncSP(s))
  {
    LoadSPAt(lines, i, sym, s);
    IncMAt(lines, i + 1, sym, s.(a := 0));
  }

  lemma DecSPAt(lines: seq<string>, i: nat, sym: map<string, Word>, s: State)
    requires i + 2 <= |lines| && lines[i] == "@SP" && lines[i + 1] == "AM=M-1"
    ensures Exec(lines[i..], sym, s) == Exec(lines[i + 2..], sym, DecSP(s))
  {
    LoadSPAt(lines, i, sym, s);
    DecAMAt(lines, i + 1, sym, s.(a := 0));
  }

  lemma IncSPFacts(s: State)
    requires SP(s) as int + 1 < 0x1_0000
    ensures SP(IncSP(s)) as int == SP(s) as int + 1
    ensures forall x :: x != 0 ==> Read(IncSP(s).ram, x) == Read(s.ram, x)
  {
  }

  lemma DecSPFacts(s: State)
    requires SP(s) >= 1
    ensures SP(DecSP(s)) as int == SP(s) as int - 1 && DecSP(s).a == SP(DecSP(s))
    ensures forall x :: x != 0 ==> Read(DecSP(s).ram, x) == Read(s.ram, x)
  {
  }

  /** The state the push template leaves. */
  function PushSteps(s: State): State {
    var s1 := s.(a := Read(s.ram, 0));
    IncSP(s1.(ram := Write(s1.ram, s1.a, s1.d)))
  }

  lemma PushTemplateAt(lines: seq<string>, i: nat, sym: map<string, Word>, s: State)
    requires i + 5 <= |lines| && lines[i..i + 5] == PushTemplate()
    ensures Exec(lines[i..], sym, s) == Exec(lines[i + 5..], sym, PushSteps(s))
  {
    assert lines[i] == "@SP" && lines[i + 1] == "A=M" && lines[i + 2] == "M=D";
    assert lines[i + 3] == "@SP" && lines[i + 4] == "M=M+1\n";
    LoadSPAt(lines, i, sym, s);
    var s1 := s.(a := 0);
    AEqMAt(lines, i + 1, sym, s1);
    var s2 := s1.(a := Read(s1.ram, s1.a));
    MEqDAt(lines, i + 2, sym, s2);
    IncSPAt(lines, i + 3, sym, s2.(ram := Write(s2.ram, s2.a, s2.d)));
  }

  /** The push template pushes D. */
  lemma PushStepsPushes(s: State)
    requires Sane(s)
    ensures Pushed(s, PushSteps(s), s.d) && PushSteps(s).d == s.d
  {
    var ram3 := Write(s.ram, SP(s), s.d);
    ReadWrite(s.ram, SP(s), 0, s.d);
    assert PushSteps(s).ram == Write(ram3, 0, Add(SP(s), 1));
    forall x | x !in {0, SP(s)}
      ensures Read(PushSteps(s).ram, x) == Read(s.ram, x)
    {
      ReadWrite(ram3, 0, x, Add(SP(s), 1));
      ReadWrite(s.ram, SP(s), x, s.d);
    }
  }

  /** The push template as the last five lines of a block: the block ends
      with D pushed. */
  /** The push template on its own: push D. */
  lemma PushTemplateRuns(lines: seq<string>, sym: map<string, Word>, s: State)
    requires lines == PushTemplate()
    ensures Exec(lines, sym, s) == Fell(PushSteps(s))
  {
    assert lines[0..5] == PushTemplate() && lines[0..] == lines;
    PushTemplateAt(lines, 0, sym, s);
    EndOfBlock(lines, 5, sym, PushSteps(s));
  }

  lemma PushTemplateEnds(lines: seq<string>, i: nat, sym: map<string, Word>, s: State)
    requires i + 5 == |lines| && lines[i..] == PushTemplate()
    requires Sane(s)
    ensures Exec(lines[i..], sym, s) == Fell(PushSteps(s))
    ensures Pushed(s, PushSteps(s), s.d)
  {
    PushTemplateAt(lines, i, sym, s);
    assert lines[i + 5..] == [];
    PushStepsPushes(s);
  }

  /** The state `@SP`, `AM=M-1`, `D=M` leaves. */
  function PopSteps(s: State): State {
    var s1 := DecSP(s);
    s1.(d := Read(s1.ram, s1.a))
  }

  lemma PopTopAt(lines: seq<string>, i: nat, sym: map<string, Word>, s: State)
    requires i + 3 <= |lines| && lines[i] == "@SP" && lines[i + 1] == "AM=M-1"
    requires lines[i + 2] == "D=M" || lines[i + 2] == "D=M\n"
    ensures Exec(lines[i..], sym, s) == Exec(lines[i + 3..], sym, PopSteps(s))
  {
    DecSPAt(lines, i, sym, s);
    DEqMAt(lines, i + 2, sym, DecSP(s));
  }

  /** Popping the top into D: A points at the old top, the stack pointer is
      one lower and nothing else in RAM changed. */
  lemma PopStepsPops(s: State)
    requires Sane(s)
    ensures PopSteps(s).d == Top(s)
    ensures PopSteps(s).a == Sub(SP(s), 1) && Sub(SP(s), 1) as int == SP(s) as int - 1
    ensures PopSteps(s).ram == Write(s.ram, 0, Sub(SP(s), 1))
  {
    ReadWrite(s.ram, 0, Sub(SP(s), 1), Sub(SP(s), 1));
  }

  // ---------------------------------------------------------------------------
  // push and pop
  // ---------------------------------------------------------------------------

  /** `n` as a 16-bit word. */
  function WordOf(n: nat): Word {
    if n < 0x1_0000 then n as Word else (n % 0x1_0000) as Word
  }

  /** Where the virtual segment cell `segment offset` lives, as the VM
      specification places it: base pointer plus offset for `local`,
      `argument`, `this` and `that`; registers 3-4 for `pointer` and 5-12
      for `temp`; the assembler variable of the module for `static`. */
  function SegmentAddress(fileName: string, segment: string, offset: nat, sym: map<string, Word>, s: State): Option<Word> {
    if segment == "local" then Some(Add(Read(s.ram, 1), WordOf(offset)))
    else if segment == "argument" then Some(Add(Read(s.ram, 2), WordOf(offset)))
    else if segment == "this" then Some(Add(Read(s.ram, 3), WordOf(offset)))
    else if segment == "that" then Some(Add(Read(s.ram, 4), WordOf(offset)))
    else if segment == "pointer" then Some(WordOf(3 + offset))
    else if segment == "temp" then Some(WordOf(5 + offset))
    else if segment == "static" && StaticSymbol(fileName, offset) in sym then
      Some(sym[StaticSymbol(fileName, offset)])
    else None
  }

  /** The offsets the generated code can address: constants and pointer
      offsets are loaded with `@`, so they stay below 2^15; the fixed
      regions must stay within the registers; a static variable must have
      been given an address. */
  predicate InRange(fileName: string, segment: string, offset: nat, sym: map<string, Word>) {
    if segment == "static" then StaticSymbol(fileName, offset) in sym
    else if segment in FixedSegments then offset + SegmentAsm[segment].first < 16
    else offset < 0x8000
  }

  /** The value `push segment offset` puts on the stack. */
  function PushValue(fileName: string, segment: string, offset: nat, sym: map<string, Word>, s: State): Word {
    if segment == "constant" then WordOf(offset)
    else match SegmentAddress(fileName, segment, offset, sym, s)
      case Some(x) => Read(s.ram, x)
      case None => 0
  }

  /** Where `SegmentAddress` places a cell, one family of segments at a time. */
  lemma PointerSegmentAddress(fileName: string, segment: string, offset: nat, sym: map<string, Word>, s: State)
    requires segment in PointerSegments
    ensures SegmentAddress(fileName, segment, offset, sym, s)
            == Some(Add(Read(s.ram, PointerAddress(SegmentAsm[segment].symbol)), WordOf(offset)))
  {
  }

  lemma FixedSegmentAddress(fileName: string, segment: string, offset: nat, sym: map<string, Word>, s: State)
    requires segment in FixedSegments && offset + SegmentAsm[segment].first < 16
    ensures SegmentAddress(fileName, segment, offset, sym, s) == Some((offset + SegmentAsm[segment].first) as Word)
  {
  }

  /** A pop that may also use more scratch registers. */
  lemma PoppedWiden(s: State, s': State, x: Word, scratch: set<Word>, more: set<Word>)
    requires Popped(s, s', x, scratch) && scratch <= more
    ensures Popped(s, s', x, more)
  {
  }

  lemma PushConstantRuns(lines: seq<string>, offset: nat, sym: map<string, Word>, s: State)
    requires |lines| == 8 && IsComment(lines[0]) && lines[1] == "@" + NatToString(offset) && lines[2] == "D=A"
    requires lines[3..] == PushTemplate()
    requires offset < 0x8000 && Sane(s)
    ensures Exec(lines, sym, s).Fell? && Pushed(s, Exec(lines, sym, s).s, WordOf(offset))
  {
    CommentAt(lines, 0, sym, s);
    LoadNatAt(lines, 1, offset, sym, s);
    var s1 := s.(a := offset as Word);
    DEqAAt(lines, 2, sym, s1);
    var s2 := s1.(d := s1.a);
    PushTemplateEnds(lines, 3, sym, s2);
    assert lines[0..] == lines;
    PushedSameRam(s2, s, PushSteps(s2), s2.d);
  }

  /** `@base`, `D=M`, `@offset`: D holds the base pointer, A the offset. */
  lemma BaseAndOffsetAt(lines: seq<string>, i: nat, base: string, p: Word, offset: nat, sym: map<string, Word>, s: State)
    requires i + 3 <= |lines| && LoadsSymbol(lines[i], base) && Resolve(base, sym) == Some(p)
    requires lines[i + 1] == "D=M" && lines[i + 2] == "@" + NatToString(offset) && offset < 0x8000
    ensures Exec(lines[i..], sym, s)
            == Exec(lines[i + 3..], sym, s.(a := offset as Word, d := Read(s.ram, p)))
  {
    LoadAt(lines, i, base, p, sym, s);
    var s1 := s.(a := p);
    DEqMAt(lines, i + 1, sym, s1);
    var s2 := s1.(d := Read(s1.ram, s1.a));
    LoadNatAt(lines, i + 2, offset, sym, s2);
  }

  lemma PushPointerRuns(lines: seq<string>, base: string, offset: nat, sym: map<string, Word>, s: State)
    requires base in {"LCL", "ARG", "THIS", "THAT"}
    requires |lines| == 11 && IsComment(lines[0]) && lines[1] == "@" + base && lines[2] == "D=M"
    requires lines[3] == "@" + NatToString(offset) && lines[4] == "A=D+A" && lines[5] == "D=M"
    requires lines[6..] == PushTemplate()
    requires offset < 0x8000 && Sane(s)
    ensures Exec(lines, sym, s).Fell?
    ensures Pushed(s, Exec(lines, sym, s).s, Read(s.ram, Add(Read(s.ram, PointerAddress(base)), WordOf(offset))))
  {
    var p := PointerAddress(base);
    CommentAt(lines, 0, sym, s);
    LoadsPointer(base);
    ResolvePointer(base, sym);
    BaseAndOffsetAt(lines, 1, base, p, offset, sym, s);
    var s3 := s.(a := offset as Word, d := Read(s.ram, p));
    AEqDPlusAAt(lines, 4, sym, s3);
    var s4 := s3.(a := Add(s3.d, s3.a));
    DEqMAt(lines, 5, sym, s4);
    var s5 := s4.(d := Read(s4.ram, s4.a));
    PushTemplateEnds(lines, 6, sym, s5);
    assert lines[0..] == lines;
    PushedSameRam(s5, s, PushSteps(s5), s5.d);
  }

  /** Pushing a cell the code names directly: a register of a fixed region
      or a static variable. */
  lemma PushDirectRuns(lines: seq<string>, x: string, addr: Word, sym: map<string, Word>, s: State)
    requires |lines| == 8 && IsComment(lines[0]) && LoadsSymbol(lines[1], x) && lines[2] == "D=M"
    requires lines[3..] == PushTemplate()
    requires Resolve(x, sym) == Some(addr) && Sane(s)
    ensures Exec(lines, sym, s).Fell? && Pushed(s, Exec(lines, sym, s).s, Read(s.ram, addr))
  {
    CommentAt(lines, 0, sym, s);
    LoadAt(lines, 1, x, addr, sym, s);
    var s1 := s.(a := addr);
    DEqMAt(lines, 2, sym, s1);
    var s2 := s1.(d := Read(s1.ram, s1.a));
    PushTemplateEnds(lines, 3, sym, s2);
    assert lines[0..] == lines;
    PushedSameRam(s2, s, PushSteps(s2), s2.d);
  }

  lemma PushStaticEffect(ctx: Ctx, offset: nat, sym: map<string, Word>, s: State)
    requires StaticSymbol(ctx.fileName, offset) in sym && Sane(s)
    ensures Exec(PushOperation(ctx, "static", offset).value, sym, s).Fell?
    ensures Pushed(s, Exec(PushOperation(ctx, "static", offset).value, sym, s).s,
                   Read(s.ram, sym[StaticSymbol(ctx.fileName, offset)]))
  {
    var x := StaticSymbol(ctx.fileName, offset);
    LoadsStatic(ctx.fileName, offset);
    ResolveStatic(ctx.fileName, offset, sym);
    PushDirectRuns(PushOperation(ctx, "static", offset).value, x, sym[x], sym, s);
  }

  lemma PushPointerEffect(ctx: Ctx, segment: string, offset: nat, sym: map<string, Word>, s: State)
    requires segment in PointerSegments && offset < 0x8000 && Sane(s)
    ensures Exec(PushOperation(ctx, segment, offset).value, sym, s).Fell?
    ensures Pushed(s, Exec(PushOperation(ctx, segment, offset).value, sym, s).s,
                   Read(s.ram, Add(Read(s.ram, PointerAddress(SegmentAsm[segment].symbol)), WordOf(offset))))
  {
    PushPointerRuns(PushOperation(ctx, segment, offset).value, SegmentAsm[segment].symbol, offset, sym, s);
  }

  lemma PushFixedEffect(ctx: Ctx, segment: string, offset: nat, sym: map<string, Word>, s: State)
    requires segment in FixedSegments && offset + SegmentAsm[segment].first < 16 && Sane(s)
    ensures Exec(PushOperation(ctx, segment, offset).value, sym, s).Fell?
    ensures Pushed(s, Exec(PushOperation(ctx, segment, offset).value, sym, s).s,
                   Read(s.ram, (offset + SegmentAsm[segment].first) as Word))
  {
    var n := offset + SegmentAsm[segment].first;
    LoadsRegister(n);
    ResolveRegister(n, sym);
    PushDirectRuns(PushOperation(ctx, segment, offset).value, "R" + NatToString(n), n as Word, sym, s);
  }

  /** `push segment offset` pushes the value the VM specification gives the
      cell: the constant itself, or the contents of `SegmentAddress`. */
  lemma PushEffect(ctx: Ctx, segment: string, offset: nat, sym: map<string, Word>, s: State)
    requires IsPushSegment(segment) && InRange(ctx.fileName, segment, offset, sym) && Sane(s)
    ensures Exec(PushOperation(ctx, segment, offset).value, sym, s).Fell?
    ensures Pushed(s, Exec(PushOperation(ctx, segment, offset).value, sym, s).s,
                   PushValue(ctx.fileName, segment, offset, sym, s))
  {
    if segment == "constant" {
      PushConstantRuns(PushOperation(ctx, segment, offset).value, offset, sym, s);
    } else if segment == "static" {
      PushStaticEffect(ctx, offset, sym, s);
    } else if segment in PointerSegments {
      PushPointerEffect(ctx, segment, offset, sym, s);
      PointerSegmentAddress(ctx.fileName, segment, offset, sym, s);
    } else {
      PushFixedEffect(ctx, segment, offset, sym, s);
      FixedSegmentAddress(ctx.fileName, segment, offset, sym, s);
    }
  }


  lemma PopDirectRuns(lines: seq<string>, x: string, addr: Word, sym: map<string, Word>, s: State)
    requires |lines| == 6 && IsComment(lines[0]) && lines[1] == "@SP" && lines[2] == "AM=M-1" && lines[3] == "D=M"
    requires LoadsSymbol(lines[4], x) && lines[5] == "M=D\n"
    requires Resolve(x, sym) == Some(addr) && Sane(s)
    ensures Exec(lines, sym, s).Fell?
    ensures addr != 0 ==> Popped(s, Exec(lines, sym, s).s, addr, {})
  {
    CommentAt(lines, 0, sym, s);
    PopTopAt(lines, 1, sym, s);
    var s1 := PopSteps(s);
    PopStepsPops(s);
    LoadAt(lines, 4, x, addr, sym, s1);
    var s2 := s1.(a := addr);
    MEqDAt(lines, 5, sym, s2);
    var s3 := s2.(ram := Write(s2.ram, s2.a, s2.d));
    assert lines[6..] == [] && lines[0..] == lines;
    if addr != 0 {
      ReadWrite(s2.ram, addr, 0, s2.d);
      ReadWrite(s2.ram, addr, addr, s2.d);
      forall y | y !in {0, addr}
        ensures Read(s3.ram, y) == Read(s.ram, y)
      {
        ReadWrite(s2.ram, addr, y, s2.d);
        ReadWrite(s.ram, 0, y, Sub(SP(s), 1));
      }
    }
  }

  /** `@base`, `D=M`, `@offset`, `D=D+A`, `@R13`, `M=D`: the target
      address computed and parked in R13. */
  lemma TargetAt(lines: seq<string>, base: string, offset: nat, sym: map<string, Word>, s: State)
    requires base in {"LCL", "ARG", "THIS", "THAT"} && offset < 0x8000
    requires |lines| >= 7 && lines[1] == "@" + base && lines[2] == "D=M"
    requires lines[3] == "@" + NatToString(offset) && lines[4] == "D=D+A"
    requires lines[5] == "@R13" && lines[6] == "M=D"
    ensures var addr := Add(Read(s.ram, PointerAddress(base)), WordOf(offset));
            Exec(lines[1..], sym, s)
            == Exec(lines[7..], sym, s.(a := 13, d := addr, ram := Write(s.ram, 13, addr)))
  {
    var p := PointerAddress(base);
    LoadsPointer(base);
    ResolvePointer(base, sym);
    BaseAndOffsetAt(lines, 1, base, p, offset, sym, s);
    var s3 := s.(a := offset as Word, d := Read(s.ram, p));
    DEqDPlusAAt(lines, 4, sym, s3);
    var s4 := s3.(d := Add(s3.d, s3.a));
    LoadScratchAt(lines, 5, 13, sym, s4);
    MEqDAt(lines, 6, sym, s4.(a := 13));
  }

  /** `@SP`, `AM=M-1`, `D=M`, `@R13`, `A=M`, `M=D`: the top popped into
      the cell whose address R13 holds. */
  function PopViaScratch(s: State): State {
    var t := PopSteps(s);
    var x := Read(t.ram, 13);
    t.(a := x, ram := Write(t.ram, x, t.d))
  }

  lemma PopViaScratchAt(lines: seq<string>, i: nat, sym: map<string, Word>, s: State)
    requires i + 6 <= |lines| && lines[i] == "@SP" && lines[i + 1] == "AM=M-1" && lines[i + 2] == "D=M"
    requires lines[i + 3] == "@R13" && lines[i + 4] == "A=M" && lines[i + 5] == "M=D\n"
    ensures Exec(lines[i..], sym, s) == Exec(lines[i + 6..], sym, PopViaScratch(s))
  {
    PopTopAt(lines, i, sym, s);
    var t := PopSteps(s);
    LoadScratchAt(lines, i + 3, 13, sym, t);
    AEqMAt(lines, i + 4, sym, t.(a := 13));
    MEqDAt(lines, i + 5, sym, t.(a := Read(t.ram, 13)));
  }

  /** With the target parked in R13, the pop lands in the target. */
  lemma PopViaScratchFacts(s: State, addr: Word)
    requires Sane(s) && addr != 0
    ensures Popped(s, PopViaScratch(s.(a := 13, d := addr, ram := Write(s.ram, 13, addr))), addr, {13})
  {
    var s6 := s.(a := 13, d := addr, ram := Write(s.ram, 13, addr));
    ReadWrite(s.ram, 13, 0, addr);
    ReadWrite(s.ram, 13, Sub(SP(s), 1), addr);
    var s7 := PopSteps(s6);
    PopStepsPops(s6);
    ReadWrite(s6.ram, 0, 13, Sub(SP(s), 1));
    var s9 := s7.(a := addr);
    var s10 := s9.(ram := Write(s9.ram, s9.a, s9.d));
    assert PopViaScratch(s6) == s10;
    ReadWrite(s9.ram, addr, 0, s9.d);
    ReadWrite(s6.ram, 0, 0, Sub(SP(s), 1));
    ReadWrite(s9.ram, addr, addr, s9.d);
    forall y | y !in {0, addr, 13}
      ensures Read(s10.ram, y) == Read(s.ram, y)
    {
      ReadWrite(s9.ram, addr, y, s9.d);
      ReadWrite(s6.ram, 0, y, Sub(SP(s), 1));
      ReadWrite(s.ram, 13, y, addr);
    }
  }

  lemma PopPointerLines(lines: seq<string>, base: string, offset: nat)
    requires |lines| == 13
    requires lines[1..7] == ["@" + base, "D=M", "@" + NatToString(offset), "D=D+A", "@R13", "M=D"]
    requires lines[7..] == ["@SP", "AM=M-1", "D=M", "@R13", "A=M", "M=D\n"]
    ensures lines[1] == "@" + base && lines[2] == "D=M" && lines[3] == "@" + NatToString(offset)
    ensures lines[4] == "D=D+A" && lines[5] == "@R13" && lines[6] == "M=D"
    ensures lines[7] == "@SP" && lines[8] == "AM=M-1" && lines[9] == "D=M"
    ensures lines[10] == "@R13" && lines[11] == "A=M" && lines[12] == "M=D\n"
  {
    assert lines[1] == lines[1..7][0] && lines[2] == lines[1..7][1] && lines[3] == lines[1..7][2];
    assert lines[4] == lines[1..7][3] && lines[5] == lines[1..7][4] && lines[6] == lines[1..7][5];
    assert lines[7] == lines[7..][0] && lines[8] == lines[7..][1] && lines[9] == lines[7..][2];
    assert lines[10] == lines[7..][3] && lines[11] == lines[7..][4] && lines[12] == lines[7..][5];
  }

  lemma PopPointerRuns(lines: seq<string>, base: string, offset: nat, sym: map<string, Word>, s: State)
    requires base in {"LCL", "ARG", "THIS", "THAT"} && offset < 0x8000
    requires |lines| == 13 && IsComment(lines[0])
    requires lines[1..7] == ["@" + base, "D=M", "@" + NatToString(offset), "D=D+A", "@R13", "M=D"]
    requires lines[7..] == ["@SP", "AM=M-1", "D=M", "@R13", "A=M", "M=D\n"]
    requires Sane(s)
    ensures var addr := Add(Read(s.ram, PointerAddress(base)), WordOf(offset));
            && Exec(lines, sym, s).Fell?
            && (addr != 0 ==> Popped(s, Exec(lines, sym, s).s, addr, {13}))
  {
    var addr := Add(Read(s.ram, PointerAddress(base)), WordOf(offset));
    var s6 := s.(a := 13, d := addr, ram := Write(s.ram, 13, addr));
    CommentAt(lines, 0, sym, s);
    PopPointerLines(lines, base, offset);
    TargetAt(lines, base, offset, sym, s);
    PopViaScratchAt(lines, 7, sym, s6);
    assert lines[13..] == [] && lines[0..] == lines;
    if addr != 0 {
      PopViaScratchFacts(s, addr);
    }
  }

  lemma PopStaticEffect(ctx: Ctx, offset: nat, sym: map<string, Word>, s: State)
    requires StaticSymbol(ctx.fileName, offset) in sym && Sane(s)
    ensures var addr := sym[StaticSymbol(ctx.fileName, offset)];
            && Exec(PopOperation(ctx, "static", offset).value, sym, s).Fell?
            && (addr != 0 ==> Popped(s, Exec(PopOperation(ctx, "static", offset).value, sym, s).s, addr, {}))
  {
    var x := StaticSymbol(ctx.fileName, offset);
    LoadsStatic(ctx.fileName, offset);
    ResolveStatic(ctx.fileName, offset, sym);
    PopDirectRuns(PopOperation(ctx, "static", offset).value, x, sym[x], sym, s);
  }

  lemma PopPointerEffect(ctx: Ctx, segment: string, offset: nat, sym: map<string, Word>, s: State)
    requires segment in PointerSegments && offset < 0x8000 && Sane(s)
    ensures var addr := Add(Read(s.ram, PointerAddress(SegmentAsm[segment].symbol)), WordOf(offset));
            && Exec(PopOperation(ctx, segment, offset).value, sym, s).Fell?
            && (addr != 0 ==> Popped(s, Exec(PopOperation(ctx, segment, offset).value, sym, s).s, addr, {13}))
  {
    var base := SegmentAsm[segment].symbol;
    PopPointerShape(ctx, segment, offset);
    PopPointerRuns(PopOperation(ctx, segment, offset).value, base, offset, sym, s);
  }

  /** The code `pop` emits for a segment reached through a pointer. */
  lemma PopPointerShape(ctx: Ctx, segment: string, offset: nat)
    requires segment in PointerSegments
    ensures var lines := PopOperation(ctx, segment, offset).value;
            && |lines| == 13 && IsComment(lines[0])
            && lines[1..7] == ["@" + SegmentAsm[segment].symbol, "D=M", "@" + NatToString(offset), "D=D+A", "@R13", "M=D"]
            && lines[7..] == ["@SP", "AM=M-1", "D=M", "@R13", "A=M", "M=D\n"]
  {
    var lines := PopOperation(ctx, segment, offset).value;
    var h := ["@" + SegmentAsm[segment].symbol, "D=M", "@" + NatToString(offset), "D=D+A", "@R13", "M=D"];
    var t := ["@SP", "AM=M-1", "D=M", "@R13", "A=M", "M=D\n"];
    assert lines == [lines[0]] + h + t;
    assert lines[1..7] == h;
    assert lines[7..] == t;
  }

  lemma PopFixedEffect(ctx: Ctx, segment: string, offset: nat, sym: map<string, Word>, s: State)
    requires segment in FixedSegments && offset + SegmentAsm[segment].first < 16 && Sane(s)
    ensures var n := offset + SegmentAsm[segment].first;
            && Exec(PopOperation(ctx, segment, offset).value, sym, s).Fell?
            && Popped(s, Exec(PopOperation(ctx, segment, offset).value, sym, s).s, n as Word, {})
  {
    var n := offset + SegmentAsm[segment].first;
    LoadsRegister(n);
    ResolveRegister(n, sym);
    PopDirectRuns(PopOperation(ctx, segment, offset).value, "R" + NatToString(n), n as Word, sym, s);
  }

  /** `pop segment offset` stores the top of the stack into the cell
      `SegmentAddress` names and lowers the stack pointer, leaving RAM
      untouched elsewhere but in R13, which the pointer segments use as
      scratch. The one cell this cannot describe is RAM[0] itself: a store
      there overwrites the lowered stack pointer. */
  lemma PopEffect(ctx: Ctx, segment: string, offset: nat, sym: map<string, Word>, s: State)
    requires IsPopSegment(segment) && InRange(ctx.fileName, segment, offset, sym) && Sane(s)
    ensures var addr := SegmentAddress(ctx.fileName, segment, offset, sym, s);
            && addr.Some?
            && Exec(PopOperation(ctx, segment, offset).value, sym, s).Fell?
            && (addr.value != 0 ==>
                  Popped(s, Exec(PopOperation(ctx, segment, offset).value, sym, s).s, addr.value, {13}))
  {
    var o := Exec(PopOperation(ctx, segment, offset).value, sym, s);
    if segment == "static" {
      PopStaticEffect(ctx, offset, sym, s);
      if sym[StaticSymbol(ctx.fileName, offset)] != 0 {
        PoppedWiden(s, o.s, sym[StaticSymbol(ctx.fileName, offset)], {}, {13});
      }
    } else if segment in PointerSegments {
      PopPointerEffect(ctx, segment, offset, sym, s);
      PointerSegmentAddress(ctx.fileName, segment, offset, sym, s);
    } else {
      PopFixedEffect(ctx, segment, offset, sym, s);
      FixedSegmentAddress(ctx.fileName, segment, offset, sym, s);
      PoppedWiden(s, o.s, (offset + SegmentAsm[segment].first) as Word, {}, {13});
    }
  }

  /** `push segment offset` followed by `pop segment offset` leaves the cell
      and the stack pointer as they were; only the freed stack cell and the
      scratch register R13 may differ. */
  lemma PushThenPop(ctx: Ctx, segment: string, offset: nat, sym: map<string, Word>, s: State)
    requires IsPopSegment(segment) && InRange(ctx.fileName, segment, offset, sym)
    requires 256 <= SP(s) as int && SP(s) as int + 1 < 0x4000
    requires SegmentAddress(ctx.fileName, segment, offset, sym, s) != Some(0)
    ensures SegmentAddress(ctx.fileName, segment, offset, sym, s).Some?
    ensures var o1 := Exec(PushOperation(ctx, segment, offset).value, sym, s);
            && o1.Fell?
            && var o2 := Exec(PopOperation(ctx, segment, offset).value, sym, o1.s);
            && o2.Fell?
            && SP(o2.s) == SP(s)
            && Read(o2.s.ram, SegmentAddress(ctx.fileName, segment, offset, sym, s).value)
               == Read(s.ram, SegmentAddress(ctx.fileName, segment, offset, sym, s).value)
            && SameExcept(s, o2.s, {SP(s), 13})
  {
    PushEffect(ctx, segment, offset, sym, s);
    var s1 := Exec(PushOperation(ctx, segment, offset).value, sym, s).s;
    PopEffect(ctx, segment, offset, sym, s1);
    var s2 := Exec(PopOperation(ctx, segment, offset).value, sym, s1).s;
    PushPopFacts(ctx.fileName, segment, offset, sym, s, s1, s2);
  }

  /** The state facts behind `PushThenPop`: the push leaves the base
      pointers alone, so the pop writes back to the same cell. */
  lemma PushPopFacts(fileName: string, segment: string, offset: nat, sym: map<string, Word>,
                     s: State, s1: State, s2: State)
    requires IsPopSegment(segment) && 256 <= SP(s) as int
    requires SegmentAddress(fileName, segment, offset, sym, s).Some?
    requires SegmentAddress(fileName, segment, offset, sym, s) != Some(0)
    requires Pushed(s, s1, PushValue(fileName, segment, offset, sym, s))
    requires var addr := SegmentAddress(fileName, segment, offset, sym, s1);
             addr.Some? && (addr.value != 0 ==> Popped(s1, s2, addr.value, {13}))
    ensures SP(s2) == SP(s)
    ensures var addr := SegmentAddress(fileName, segment, offset, sym, s).value;
            Read(s2.ram, addr) == Read(s.ram, addr)
    ensures SameExcept(s, s2, {SP(s), 13})
  {
    assert Read(s1.ram, 1) == Read(s.ram, 1) && Read(s1.ram, 2) == Read(s.ram, 2);
    assert Read(s1.ram, 3) == Read(s.ram, 3) && Read(s1.ram, 4) == Read(s.ram, 4);
    var addr := SegmentAddress(fileName, segment, offset, sym, s).value;
    assert SegmentAddress(fileName, segment, offset, sym, s1) == Some(addr);
    assert Sub(SP(s1), 1) == SP(s);
    forall y | y !in {SP(s), 13}
      ensures Read(s2.ram, y) == Read(s.ram, y)
    {
      if y != 0 && y != addr {
        assert Read(s2.ram, y) == Read(s1.ram, y);
      }
    }
  }


  // ---------------------------------------------------------------------------
  // Arithmetic and logic
  // ---------------------------------------------------------------------------

  /** The stack holds at least `n` values: the stack pointer is `n` or more
      cells above its base 256. */
  predicate Holds(s: State, n: nat) {
    Sane(s) && SP(s) as int >= 256 + n
  }

  /** The value just below the top of the stack. */
  function Second(s: State): Word {
    Read(s.ram, Sub(SP(s), 2))
  }

  /** `s'` is `s` with its two topmost values replaced by `v`. */
  ghost predicate Combined(s: State, s': State, v: Word) {
    && SP(s') as int == SP(s) as int - 1
    && Read(s'.ram, Sub(SP(s), 2)) == v
    && SameExcept(s, s', {0, Sub(SP(s), 2)})
  }

  /** `s'` is `s` with its topmost value replaced by `v`. */
  ghost predicate Replaced(s: State, s': State, v: Word) {
    && SP(s') == SP(s)
    && Read(s'.ram, Sub(SP(s), 1)) == v
    && SameExcept(s, s', {Sub(SP(s), 1)})
  }

  /** What the emitted code computes from `x` (below) and `y` (on top) for
      each binary command. `add` shares the template and the operator `-`
      with `sub`, so it computes the difference. */
  function Binary(op: string, x: Word, y: Word): Word
    requires op in {"add", "sub", "and", "or"}
  {
    if op == "add" || op == "sub" then Sub(x, y)
    else if op == "and" then And(x, y)
    else Or(x, y)
  }

  /** What the emitted code computes from the top value for each unary
      command. */
  function Unary(op: string, y: Word): Word
    requires op in {"neg", "not"}
  {
    if op == "neg" then Sub(0, y) else Not(y)
  }

  /** `M=M-D`, `M=M&D` or `M=M|D` combines M with D. */
  lemma CombineAt(lines: seq<string>, i: nat, op: string, sym: map<string, Word>, s: State)
    requires op in {"add", "sub", "and", "or"} && i < |lines|
    requires lines[i] == (if op == "add" || op == "sub" then "M=M-D" else if op == "and" then "M=M&D" else "M=M|D")
    ensures Exec(lines[i..], sym, s)
            == Exec(lines[i + 1..], sym, s.(ram := Write(s.ram, s.a, Binary(op, Read(s.ram, s.a), s.d))))
  {
    if op == "add" || op == "sub" {
      MEqMMinusDAt(lines, i, sym, s);
    } else if op == "and" {
      MEqMAndDAt(lines, i, sym, s);
    } else {
      MEqMOrDAt(lines, i, sym, s);
    }
  }

  /** The state the binary template leaves: both operands popped, the
      result written where the lower one was, the stack pointer above it. */
  function BinarySteps(s: State, op: string): State
    requires op in {"add", "sub", "and", "or"}
  {
    var s2 := DecSP(PopSteps(s));
    var v := Binary(op, Read(s2.ram, s2.a), s2.d);
    IncSP(s2.(ram := Write(s2.ram, s2.a, v)))
  }

  lemma BinaryHeadAt(lines: seq<string>, sym: map<string, Word>, s: State)
    requires |lines| >= 6 && IsComment(lines[0])
    requires lines[1] == "@SP" && lines[2] == "AM=M-1" && lines[3] == "D=M" && lines[4] == "@SP" && lines[5] == "AM=M-1"
    ensures Exec(lines, sym, s) == Exec(lines[6..], sym, DecSP(PopSteps(s)))
  {
    CommentAt(lines, 0, sym, s);
    PopTopAt(lines, 1, sym, s);
    DecSPAt(lines, 4, sym, PopSteps(s));
    assert lines[0..] == lines;
  }

  lemma BinaryExec(lines: seq<string>, op: string, sym: map<string, Word>, s: State)
    requires op in {"add", "sub", "and", "or"}
    requires |lines| == 9 && IsComment(lines[0])
    requires lines[1] == "@SP" && lines[2] == "AM=M-1" && lines[3] == "D=M" && lines[4] == "@SP" && lines[5] == "AM=M-1"
    requires lines[6] == (if op == "add" || op == "sub" then "M=M-D" else if op == "and" then "M=M&D" else "M=M|D")
    requires lines[7] == "@SP" && lines[8] == "M=M+1\n"
    ensures Exec(lines, sym, s) == Fell(BinarySteps(s, op))
  {
    BinaryHeadAt(lines, sym, s);
    var s2 := DecSP(PopSteps(s));
    CombineAt(lines, 6, op, sym, s2);
    IncSPAt(lines, 7, sym, s2.(ram := Write(s2.ram, s2.a, Binary(op, Read(s2.ram, s2.a), s2.d))));
    assert lines[9..] == [];
  }

  /** The binary template combines the two topmost values. */
  lemma BinaryFacts(op: string, s: State)
    requires op in {"add", "sub", "and", "or"} && Holds(s, 2)
    ensures Combined(s, BinarySteps(s, op), Binary(op, Second(s), Top(s)))
  {
    var p := SP(s);
    var s1 := PopSteps(s);
    PopStepsPops(s);
    var s2 := DecSP(s1);
    DecSPFacts(s1);
    ReadWrite(s.ram, 0, 0, Sub(p, 1));
    ReadWrite(s.ram, 0, Sub(p, 2), Sub(p, 1));
    var v := Binary(op, Read(s2.ram, s2.a), s2.d);
    var s3 := s2.(ram := Write(s2.ram, s2.a, v));
    ReadWrite(s2.ram, Sub(p, 2), 0, v);
    IncSPFacts(s3);
    forall y | y !in {0, Sub(p, 2)}
      ensures Read(IncSP(s3).ram, y) == Read(s.ram, y)
    {
      ReadWrite(s2.ram, Sub(p, 2), y, v);
      ReadWrite(s.ram, 0, y, Sub(p, 1));
    }
  }

  lemma BinaryRuns(lines: seq<string>, op: string, sym: map<string, Word>, s: State)
    requires op in {"add", "sub", "and", "or"} && Holds(s, 2)
    requires |lines| == 9 && IsComment(lines[0])
    requires lines[1] == "@SP" && lines[2] == "AM=M-1" && lines[3] == "D=M" && lines[4] == "@SP" && lines[5] == "AM=M-1"
    requires lines[6] == (if op == "add" || op == "sub" then "M=M-D" else if op == "and" then "M=M&D" else "M=M|D")
    requires lines[7] == "@SP" && lines[8] == "M=M+1\n"
    ensures Exec(lines, sym, s).Fell?
    ensures Combined(s, Exec(lines, sym, s).s, Binary(op, Second(s), Top(s)))
  {
    BinaryExec(lines, op, sym, s);
    BinaryFacts(op, s);
  }

  /** `M=-M` or `M=!M` replaces M. */
  lemma ReplaceAt(lines: seq<string>, i: nat, op: string, sym: map<string, Word>, s: State)
    requires op in {"neg", "not"} && i < |lines|
    requires lines[i] == (if op == "neg" then "M=-M" else "M=!M")
    ensures Exec(lines[i..], sym, s)
            == Exec(lines[i + 1..], sym, s.(ram := Write(s.ram, s.a, Unary(op, Read(s.ram, s.a)))))
  {
    if op == "neg" {
      NegMAt(lines, i, sym, s);
    } else {
      NotMAt(lines, i, sym, s);
    }
  }

  lemma UnaryRuns(lines: seq<string>, op: string, sym: map<string, Word>, s: State)
    requires op in {"neg", "not"} && Holds(s, 1)
    requires |lines| == 6 && IsComment(lines[0]) && lines[1] == "@SP" && lines[2] == "AM=M-1"
    requires lines[3] == (if op == "neg" then "M=-M" else "M=!M")
    requires lines[4] == "@SP" && lines[5] == "M=M+1\n"
    ensures Exec(lines, sym, s).Fell?
    ensures Replaced(s, Exec(lines, sym, s).s, Unary(op, Top(s)))
  {
    var p := SP(s);
    CommentAt(lines, 0, sym, s);
    DecSPAt(lines, 1, sym, s);
    var s1 := DecSP(s);
    DecSPFacts(s);
    var v := Unary(op, Read(s1.ram, s1.a));
    ReplaceAt(lines, 3, op, sym, s1);
    var s2 := s1.(ram := Write(s1.ram, s1.a, v));
    IncSPAt(lines, 4, sym, s2);
    ReadWrite(s1.ram, Sub(p, 1), 0, v);
    ReadWrite(s.ram, 0, 0, Sub(p, 1));
    IncSPFacts(s2);
    assert lines[6..] == [] && lines[0..] == lines;
    forall y | y != Sub(p, 1)
      ensures Read(IncSP(s2).ram, y) == Read(s.ram, y)
    {
      ReadWrite(s1.ram, Sub(p, 1), y, v);
      ReadWrite(s.ram, 0, y, Sub(p, 1));
    }
  }

  /** `add`, `sub`, `and` and `or` replace the two topmost values with the
      result of the operation; `neg` and `not` replace the topmost. */
  lemma ArithmeticEffect(ctx: Ctx, op: string, sym: map<string, Word>, s: State)
    requires op in {"add", "sub", "and", "or", "neg", "not"}
    requires Holds(s, if op in {"neg", "not"} then 1 else 2)
    ensures WriteArithmetic(ctx, op).Success?
    ensures var o := Exec(WriteArithmetic(ctx, op).value.1, sym, s);
            && o.Fell?
            && (op in {"neg", "not"} ==> Replaced(s, o.s, Unary(op, Top(s))))
            && (op !in {"neg", "not"} ==> Combined(s, o.s, Binary(op, Second(s), Top(s))))
  {
    var lines := WriteArithmetic(ctx, op).value.1;
    if op in {"neg", "not"} {
      UnaryRuns(lines, op, sym, s);
    } else {
      BinaryRuns(lines, op, sym, s);
    }
  }

  /** The code for `add` subtracts: with 7 below 8 on the stack it leaves
      0xFFFF (-1), where the VM specification calls for 15. */
  lemma AddSubtracts(ctx: Ctx, sym: map<string, Word>, s: State)
    requires Holds(s, 2) && Second(s) == 7 && Top(s) == 8
    ensures var o := Exec(WriteArithmetic(ctx, "add").value.1, sym, s);
            && o.Fell?
            && Read(o.s.ram, Sub(SP(s), 2)) == 0xFFFF
            && Add(Second(s), Top(s)) == 15
  {
    ArithmeticEffect(ctx, "add", sym, s);
  }

  // ---------------------------------------------------------------------------
  // Jumps
  // ---------------------------------------------------------------------------

  /** Where a taken jump to `target` goes from the lines `rest` that follow
      it: to the first of them declaring a label at `target`, or out of the
      block. */
  function Resume(rest: seq<string>, sym: map<string, Word>, s: State, target: Word): Outcome {
    match FindLabel(rest, sym, target)
    case None => Jumped(s, target)
    case Some(k) => Exec(rest[k..], sym, s)
  }

  /** `line` declares a label that the assembler placed at `target`. */
  predicate Declares(line: string, sym: map<string, Word>, target: Word) {
    DeclaredName(line).Some? && DeclaredName(line).value in sym && sym[DeclaredName(line).value] == target
  }

  lemma ExecJump(lines: seq<string>, i: nat, sym: map<string, Word>, s: State, comp: Comp, j: Jump)
    requires i < |lines| && Decode(lines[i]) == Compute(NoDest, comp, j)
    ensures Exec(lines[i..], sym, s)
            == if Taken(j, Eval(comp, s)) then Resume(lines[i + 1..], sym, s, s.a) else Exec(lines[i + 1..], sym, s)
  {
    assert lines[i..][1..] == lines[i + 1..];
    assert Apply(NoDest, Eval(comp, s), s) == s;
  }

  /** `0;JMP` always jumps to A. */
  lemma JmpAt(lines: seq<string>, i: nat, sym: map<string, Word>, s: State)
    requires i < |lines| && (lines[i] == "0;JMP" || lines[i] == "0;JMP\n")
    ensures Exec(lines[i..], sym, s) == Resume(lines[i + 1..], sym, s, s.a)
  {
    DecodeJmp(lines[i]);
    ExecJump(lines, i, sym, s, Zero, JMP);
  }

  /** `D;J..` jumps to A when D meets the condition. */
  lemma CondJumpAt(lines: seq<string>, i: nat, j: Jump, sym: map<string, Word>, s: State)
    requires i < |lines|
    requires || (j == JNE && lines[i] == "D;JNE\n") || (j == JEQ && lines[i] == "D;JEQ")
             || (j == JGT && lines[i] == "D;JGT") || (j == JLT && lines[i] == "D;JLT")
    ensures Exec(lines[i..], sym, s)
            == if Taken(j, s.d) then Resume(lines[i + 1..], sym, s, s.a) else Exec(lines[i + 1..], sym, s)
  {
    match j
    case JNE => DecodeJne(lines[i]); ExecJump(lines, i, sym, s, DReg, j);
    case JEQ => DecodeJeq(lines[i]); ExecJump(lines, i, sym, s, DReg, j);
    case JGT => DecodeJgt(lines[i]); ExecJump(lines, i, sym, s, DReg, j);
    case JLT => DecodeJlt(lines[i]); ExecJump(lines, i, sym, s, DReg, j);
  }

  /** A line that does not open with `(` declares nothing. */
  lemma NotDeclaring(line: string, sym: map<string, Word>, target: Word)
    requires line != [] && line[0] != '('
    ensures !Declares(line, sym, target)
  {
  }

  lemma DeclaresOwn(line: string, name: string, sym: map<string, Word>)
    requires line == "(" + name + ")" || line == "(" + name + ")\n"
    ensures DeclaredName(line) == Some(name)
  {
    DeclaredNameOf(line, name);
  }

  /** The lookup finds the first line that declares the target. */
  lemma {:induction false} FindLabelFirst(ls: seq<string>, j: nat, sym: map<string, Word>, target: Word)
    requires j < |ls| && Declares(ls[j], sym, target)
    requires forall k :: 0 <= k < j ==> !Declares(ls[k], sym, target)
    ensures FindLabel(ls, sym, target) == Some(j)
    decreases j
  {
    if j > 0 {
      FindLabelFirst(ls[1..], j - 1, sym, target);
    }
  }

  /** A taken jump to a label declared at line `j` further down, with no
      line in between declaring a label at the same address, continues
      after line `j`. */
  lemma ResumeAt(lines: seq<string>, i: nat, j: nat, name: string, sym: map<string, Word>, s: State)
    requires i <= j < |lines| && (lines[j] == "(" + name + ")" || lines[j] == "(" + name + ")\n")
    requires name in sym
    requires forall k :: i <= k < j ==> !Declares(lines[k], sym, sym[name])
    ensures Resume(lines[i..], sym, s, sym[name]) == Exec(lines[j + 1..], sym, s)
  {
    DeclaresOwn(lines[j], name, sym);
    FindLabelFirst(lines[i..], j - i, sym, sym[name]);
    assert lines[i..][j - i..] == lines[j..];
    DeclAt(lines, j, name, sym, s);
  }

  /** A label the assembler placed, whose name is neither a number, a
      register nor a predefined symbol, loads its address. */
  lemma ResolveLabel(x: string, sym: map<string, Word>)
    requires x in sym && |x| >= 2 && !IsDigit(x[0]) && !IsDigit(x[1])
    requires x[0] !in {'S', 'L', 'A', 'T', 'K'}
    ensures Resolve(x, sym) == Some(sym[x])
  {
    assert x !in Predefined;
  }

  // ---------------------------------------------------------------------------
  // Branching
  // ---------------------------------------------------------------------------

  /** A label declaration does nothing when run. */
  lemma LabelEffect(name: string, sym: map<string, Word>, s: State)
    ensures Exec(WriteLabel(name), sym, s) == Fell(s)
  {
    var lines := WriteLabel(name);
    CommentAt(lines, 0, sym, s);
    DeclAt(lines, 1, name, sym, s);
    assert lines[2..] == [];
  }

  /** `goto` leaves the block for the label's address. */
  lemma GotoEffect(name: string, t: Word, sym: map<string, Word>, s: State)
    requires IsWord(name) && Resolve(name, sym) == Some(t)
    ensures Exec(WriteGoto(name), sym, s) == Jumped(s.(a := t), t)
  {
    var lines := WriteGoto(name);
    CommentAt(lines, 0, sym, s);
    assert !IsSpace(name[|name| - 1]);
    LoadAt(lines, 1, name, t, sym, s);
    JmpAt(lines, 2, sym, s.(a := t));
    assert lines[3..] == [];
  }

  /** `if-goto` pops the top value and leaves the block for the label's
      address exactly when that value is not zero. */
  lemma IfGotoEffect(name: string, t: Word, sym: map<string, Word>, s: State)
    requires IsWord(name) && Resolve(name, sym) == Some(t) && Holds(s, 1)
    ensures var s' := PopSteps(s).(a := t);
            && Exec(WriteIfGoto(name), sym, s) == (if Top(s) != 0 then Jumped(s', t) else Fell(s'))
            && SP(s') as int == SP(s) as int - 1
            && SameExcept(s, s', {0})
  {
    var lines := WriteIfGoto(name);
    CommentAt(lines, 0, sym, s);
    PopTopAt(lines, 1, sym, s);
    PopStepsPops(s);
    var s1 := PopSteps(s);
    assert !IsSpace(name[|name| - 1]);
    LoadAt(lines, 4, name, t, sym, s1);
    CondJumpAt(lines, 5, JNE, sym, s1.(a := t));
    assert lines[6..] == [];
    ReadWrite(s.ram, 0, 0, Sub(SP(s), 1));
    forall y | y != 0 ensures Read(s1.ram, y) == Read(s.ram, y) {
      ReadWrite(s.ram, 0, y, Sub(SP(s), 1));
    }
  }

  // ---------------------------------------------------------------------------
  // Comparisons
  // ---------------------------------------------------------------------------

  /** The jump condition each comparison tests the difference with. */
  function JumpOf(op: string): Jump
    requires IsComparison(op)
  {
    if op == "eq" then JEQ else if op == "gt" then JGT else JLT
  }

  /** The jump mnemonic `write_arithmetic` hands the comparison template. */
  function JumpName(op: string): string
    requires IsComparison(op)
  {
    if op == "eq" then "JEQ" else if op == "gt" then "JGT" else "JLT"
  }

  /** What a comparison leaves: true (all ones) when the 16-bit difference
      `x - y` meets the jump condition, false (zero) otherwise. */
  function Compare(op: string, x: Word, y: Word): Word
    requires IsComparison(op)
  {
    if Taken(JumpOf(op), Sub(x, y)) then 0xFFFF else 0
  }

  /** `w` read as a two's-complement number. */
  function Signed(w: Word): int {
    if Negative(w) then w as int - 0x1_0000 else w as int
  }

  /** As long as the difference of the two values fits in 16 signed bits,
      the comparisons mean what their names say. */
  lemma CompareMeaning(x: Word, y: Word)
    requires -0x8000 <= Signed(x) - Signed(y) < 0x8000
    ensures Compare("eq", x, y) == (if x == y then 0xFFFF else 0)
    ensures Compare("gt", x, y) == (if Signed(x) > Signed(y) then 0xFFFF else 0)
    ensures Compare("lt", x, y) == (if Signed(x) < Signed(y) then 0xFFFF else 0)
  {
  }

  /** A push that follows two pops combines the two topmost values. */
  lemma PushAfterPopTwo(s: State, t: State)
    requires Holds(s, 2) && t.ram == DecSP(PopSteps(s)).ram
    ensures Combined(s, PushSteps(t), t.d)
  {
    var p := SP(s);
    PopStepsPops(s);
    DecSPFacts(PopSteps(s));
    ReadWrite(s.ram, 0, 0, Sub(p, 1));
    PushStepsPushes(t);
    forall y | y !in {0, Sub(p, 2)}
      ensures Read(PushSteps(t).ram, y) == Read(s.ram, y)
    {
      ReadWrite(s.ram, 0, y, Sub(p, 1));
    }
  }

  /** The generated comparison labels load the addresses the assembler
      gave them. */
  lemma ResolveCompareLabels(i: nat, sym: map<string, Word>)
    requires TrueLabel(i) in sym && FalseLabel(i) in sym
    ensures Resolve(TrueLabel(i), sym) == Some(sym[TrueLabel(i)])
    ensures Resolve(FalseLabel(i), sym) == Some(sym[FalseLabel(i)])
  {
    ResolveLabel(TrueLabel(i), sym);
    ResolveLabel(FalseLabel(i), sym);
  }

  /** A word followed by a number is a word. */
  lemma WordThenNumber(p: string, n: nat)
    requires IsWord(p)
    ensures IsWord(p + NatToString(n))
  {
    var w := p + NatToString(n);
    forall k | 0 <= k < |w| ensures !IsSpace(w[k]) {
      if k >= |p| {
        assert w[k] == NatToString(n)[k - |p|];
      }
    }
  }

  /** The labels the generator makes up contain no whitespace. */
  lemma GeneratedLabelsAreWords(i: nat)
    ensures IsWord(TrueLabel(i)) && IsWord(FalseLabel(i)) && IsWord(ReturnLabel(i))
  {
    WordThenNumber("labelTrue", i);
    WordThenNumber("labelFalse", i);
    WordThenNumber("RA$", i);
  }

  /** The shape of the comparison template, line by line. */
  predicate CompareShape(lines: seq<string>, t: string, f: string, jump: string) {
    && |lines| == 21 && IsComment(lines[0])
    && lines[1] == "@SP" && lines[2] == "AM=M-1" && lines[3] == "D=M"
    && lines[4] == "@SP" && lines[5] == "AM=M-1" && lines[6] == "D=M-D"
    && lines[7] == "@" + t && lines[8] == "D;" + jump
    && lines[9] == "D=0" && lines[10] == "@" + f && lines[11] == "0;JMP"
    && lines[12] == "(" + t + ")" && lines[13] == "@SP" && lines[14] == "D=-1"
    && lines[15] == "(" + f + ")" && lines[16..] == PushTemplate()
  }

  lemma CompareTemplateShape(ctx: Ctx, cmd: string, jump: string)
    ensures CompareShape(CompareTemplate(ctx, cmd, jump).1, TrueLabel(ctx.index), FalseLabel(ctx.index), jump)
  {
  }

  /** The state after the comparison has subtracted the top value from
      the one below it: both popped, the difference in D. */
  function DiffSteps(s: State): State {
    var s2 := DecSP(PopSteps(s));
    s2.(d := Sub(Read(s2.ram, s2.a), s2.d))
  }

  lemma DiffAt(lines: seq<string>, t: string, f: string, jump: string, sym: map<string, Word>, s: State)
    requires CompareShape(lines, t, f, jump)
    ensures Exec(lines, sym, s) == Exec(lines[7..], sym, DiffSteps(s))
  {
    assert lines[0..] == lines;
    CommentAt(lines, 0, sym, s);
    PopTopAt(lines, 1, sym, s);
    DecSPAt(lines, 4, sym, PopSteps(s));
    DEqMMinusDAt(lines, 6, sym, DecSP(PopSteps(s)));
  }

  lemma DiffStepsFacts(s: State)
    requires Holds(s, 2)
    ensures DiffSteps(s).d == Sub(Second(s), Top(s))
    ensures DiffSteps(s).ram == DecSP(PopSteps(s)).ram
  {
    PopStepsPops(s);
    DecSPFacts(PopSteps(s));
    ReadWrite(s.ram, 0, Sub(SP(s), 2), Sub(SP(s), 1));
  }

  /** `@t`, `D;J..`: on to the true label when the difference meets the
      condition, on to the next line otherwise. */
  lemma BranchAt(lines: seq<string>, t: string, j: Jump, sym: map<string, Word>, s: State)
    requires 9 <= |lines| && LoadsSymbol(lines[7], t) && t in sym && Resolve(t, sym) == Some(sym[t])
    requires || (j == JEQ && lines[8] == "D;JEQ") || (j == JGT && lines[8] == "D;JGT")
             || (j == JLT && lines[8] == "D;JLT")
    ensures Exec(lines[7..], sym, s)
            == if Taken(j, s.d) then Resume(lines[9..], sym, s.(a := sym[t]), sym[t])
               else Exec(lines[9..], sym, s.(a := sym[t]))
  {
    LoadAt(lines, 7, t, sym[t], sym, s);
    CondJumpAt(lines, 8, j, sym, s.(a := sym[t]));
  }

  /** The jump line of a comparison. */
  lemma CompareJumpLine(lines: seq<string>, t: string, f: string, op: string, jump: string)
    requires IsComparison(op) && jump == JumpName(op) && CompareShape(lines, t, f, jump) && IsWord(t)
    ensures LoadsSymbol(lines[7], t)
    ensures || (JumpOf(op) == JEQ && lines[8] == "D;JEQ") || (JumpOf(op) == JGT && lines[8] == "D;JGT")
            || (JumpOf(op) == JLT && lines[8] == "D;JLT")
  {
    assert !IsSpace(t[|t| - 1]);
  }


  /** `D=0`, `@f`, `0;JMP`: false, and the jump to the false label. */
  lemma FalseJumpAt(lines: seq<string>, t: string, f: string, jump: string, sym: map<string, Word>, s: State)
    requires CompareShape(lines, t, f, jump)
    requires IsWord(f) && f in sym && Resolve(f, sym) == Some(sym[f])
    ensures Exec(lines[9..], sym, s) == Resume(lines[12..], sym, s.(d := 0, a := sym[f]), sym[f])
  {
    DZeroAt(lines, 9, sym, s);
    assert !IsSpace(f[|f| - 1]);
    LoadAt(lines, 10, f, sym[f], sym, s.(d := 0));
    JmpAt(lines, 11, sym, s.(d := 0, a := sym[f]));
  }

  /** The jump to the false label passes over the true branch. */
  lemma SkipTrueBranch(lines: seq<string>, t: string, f: string, jump: string, sym: map<string, Word>, s: State)
    requires CompareShape(lines, t, f, jump)
    requires t in sym && f in sym && sym[t] != sym[f]
    ensures Resume(lines[12..], sym, s, sym[f]) == Exec(lines[16..], sym, s)
  {
    DeclaresOwn(lines[12], t, sym);
    NotDeclaring(lines[13], sym, sym[f]);
    NotDeclaring(lines[14], sym, sym[f]);
    ResumeAt(lines, 12, 15, f, sym, s);
  }

  /** The jump to the true label lands on `D=-1` and falls into the false
      label. */
  lemma TrueBranch(lines: seq<string>, t: string, f: string, jump: string, sym: map<string, Word>, s: State)
    requires CompareShape(lines, t, f, jump) && t in sym
    ensures Resume(lines[9..], sym, s, sym[t]) == Exec(lines[16..], sym, s.(a := 0, d := 0xFFFF))
  {
    NotDeclaring(lines[9], sym, sym[t]);
    NotDeclaring(lines[10], sym, sym[t]);
    NotDeclaring(lines[11], sym, sym[t]);
    ResumeAt(lines, 9, 12, t, sym, s);
    TrueLanding(lines, t, f, jump, sym, s);
  }

  /** `@SP`, `D=-1`: true, then on through the false label. */
  lemma TrueLanding(lines: seq<string>, t: string, f: string, jump: string, sym: map<string, Word>, s: State)
    requires CompareShape(lines, t, f, jump)
    ensures Exec(lines[13..], sym, s) == Exec(lines[16..], sym, s.(a := 0, d := 0xFFFF))
  {
    LoadSPAt(lines, 13, sym, s);
    DMinusOneAt(lines, 14, sym, s.(a := 0));
    DeclAt(lines, 15, f, sym, s.(a := 0, d := 0xFFFF));
  }

  /** The comparison template, run on a stack of two or more values:
      replaces them with the outcome of the comparison. The two labels it
      declares must have been given distinct addresses. */
  lemma CompareRuns(lines: seq<string>, t: string, f: string, op: string, jump: string, sym: map<string, Word>, s: State)
    requires IsComparison(op) && jump == JumpName(op)
    requires CompareShape(lines, t, f, jump)
    requires t in sym && f in sym && sym[t] != sym[f]
    requires IsWord(t) && IsWord(f) && Resolve(t, sym) == Some(sym[t]) && Resolve(f, sym) == Some(sym[f])
    requires Holds(s, 2)
    ensures Exec(lines, sym, s).Fell?
    ensures Combined(s, Exec(lines, sym, s).s, Compare(op, Second(s), Top(s)))
  {
    DiffAt(lines, t, f, jump, sym, s);
    var s3 := DiffSteps(s);
    DiffStepsFacts(s);
    CompareJumpLine(lines, t, f, op, jump);
    BranchAt(lines, t, JumpOf(op), sym, s3);
    var s4 := s3.(a := sym[t]);
    var u := if Taken(JumpOf(op), s4.d) then s4.(a := 0, d := 0xFFFF) else s4.(d := 0, a := sym[f]);
    if Taken(JumpOf(op), s4.d) {
      TrueBranch(lines, t, f, jump, sym, s4);
    } else {
      FalseJumpAt(lines, t, f, jump, sym, s4);
      SkipTrueBranch(lines, t, f, jump, sym, u);
    }
    PushTemplateEnds(lines, 16, sym, u);
    PushAfterPopTwo(s, u);
  }

  /** `eq`, `gt` and `lt` replace the two topmost values with true or
      false, and draw fresh labels from the comparison counter. */
  lemma CompareEffect(ctx: Ctx, op: string, sym: map<string, Word>, s: State)
    requires IsComparison(op) && Holds(s, 2)
    requires TrueLabel(ctx.index) in sym && FalseLabel(ctx.index) in sym
    requires sym[TrueLabel(ctx.index)] != sym[FalseLabel(ctx.index)]
    ensures WriteArithmetic(ctx, op).Success?
    ensures var o := Exec(WriteArithmetic(ctx, op).value.1, sym, s);
            && o.Fell?
            && Combined(s, o.s, Compare(op, Second(s), Top(s)))
  {
    var i := ctx.index;
    var jump := JumpName(op);
    assert WriteArithmetic(ctx, op).value.1 == CompareTemplate(ctx, op, jump).1;
    CompareTemplateShape(ctx, op, jump);
    ResolveCompareLabels(i, sym);
    GeneratedLabelsAreWords(i);
    CompareRuns(CompareTemplate(ctx, op, jump).1, TrueLabel(i), FalseLabel(i), op, jump, sym, s);
  }

  // ---------------------------------------------------------------------------
  // Functions
  // ---------------------------------------------------------------------------

  /** There is room for `n` more values above the stack. */
  predicate Room(s: State, n: nat) {
    256 <= SP(s) as int && SP(s) as int + n <= 0x4000
  }

  /** `s'` is `s` with `n` zeros pushed. */
  ghost predicate PushedZeros(s: State, s': State, n: nat) {
    && SP(s') as int == SP(s) as int + n
    && (forall x: Word :: SP(s) <= x && x as int < SP(s) as int + n ==> Read(s'.ram, x) == 0)
    && (forall x: Word :: x != 0 && !(SP(s) <= x && x as int < SP(s) as int + n) ==> Read(s'.ram, x) == Read(s.ram, x))
  }

  /** One push of a zero followed by `n` more is `n + 1` zeros. */
  lemma PushedZerosStep(s: State, t: State, u: State, n: nat)
    requires Pushed(s, t, 0) && PushedZeros(t, u, n)
    ensures PushedZeros(s, u, n + 1)
  {
    forall x: Word | SP(s) <= x && x as int < SP(s) as int + n + 1
      ensures Read(u.ram, x) == 0
    {
      if x != SP(s) {
        assert SP(t) <= x;
      }
    }
  }

  /** `@0`, `D=A` and the push template push a zero. */
  lemma ZeroPushAt(lines: seq<string>, i: nat, sym: map<string, Word>, s: State)
    requires i + 7 <= |lines| && lines[i..i + 7] == ZeroPush()
    ensures Exec(lines[i..], sym, s) == Exec(lines[i + 7..], sym, PushSteps(s.(a := 0, d := 0)))
  {
    assert lines[i] == "@" + NatToString(0) && lines[i + 1] == "D=A";
    assert lines[i + 2..i + 7] == PushTemplate();
    LoadNatAt(lines, i, 0, sym, s);
    DEqAAt(lines, i + 1, sym, s.(a := 0));
    PushTemplateAt(lines, i + 2, sym, s.(a := 0, d := 0));
  }

  lemma {:induction false} ZeroLocalsRun(n: nat, sym: map<string, Word>, s: State)
    requires Room(s, n)
    ensures Exec(ZeroLocals(n), sym, s).Fell?
    ensures PushedZeros(s, Exec(ZeroLocals(n), sym, s).s, n)
    decreases n
  {
    if n > 0 {
      var rest := ZeroLocals(n - 1);
      assert ZeroLocals(n) == ZeroPush() + rest;
      var s1 := s.(a := 0, d := 0);
      ZeroPushFront(rest, sym, s);
      PushStepsPushes(s1);
      ZeroLocalsRun(n - 1, sym, PushSteps(s1));
      PushedZerosStep(s, PushSteps(s1), Exec(rest, sym, PushSteps(s1)).s, n - 1);
    }
  }

  lemma ZeroPushFront(rest: seq<string>, sym: map<string, Word>, s: State)
    ensures Exec(ZeroPush() + rest, sym, s) == Exec(rest, sym, PushSteps(s.(a := 0, d := 0)))
  {
    var lines := ZeroPush() + rest;
    assert lines[0..7] == ZeroPush() && lines[7..] == rest && lines[0..] == lines;
    ZeroPushAt(lines, 0, sym, s);
  }

  /** `function f k` declares `f` and pushes `k` zeros, the callee's local
      variables. */
  lemma FunctionEffect(name: string, nLocals: nat, sym: map<string, Word>, s: State)
    requires Room(s, nLocals)
    ensures Exec(WriteFunction(name, nLocals), sym, s).Fell?
    ensures PushedZeros(s, Exec(WriteFunction(name, nLocals), sym, s).s, nLocals)
  {
    var lines := WriteFunction(name, nLocals);
    assert lines[..3] == ["//  function " + name + " " + NatToString(nLocals)] + WriteLabel(name);
    assert lines[0] == "//  function " + name + " " + NatToString(nLocals);
    assert lines[1] == "// label " + name && lines[2] == "(" + name + ")\n";
    CommentAt(lines, 0, sym, s);
    CommentAt(lines, 1, sym, s);
    DeclAt(lines, 2, name, sym, s);
    assert lines[3..] == ZeroLocals(nLocals);
    assert lines[0..] == lines;
    ZeroLocalsRun(nLocals, sym, s);
  }

  // ---------------------------------------------------------------------------
  // Running a block in parts
  // ---------------------------------------------------------------------------

  /** How a block continues into `rest` after its first part ended with `o`. */
  function Then(o: Outcome, rest: seq<string>, sym: map<string, Word>): Outcome {
    match o
    case Fell(s) => Exec(rest, sym, s)
    case Jumped(s, target) => Resume(rest, sym, s, target)
    case Stuck => Stuck
  }

  /** The label lookup in two parts: the first part's declaration wins. */
  lemma {:induction false} FindLabelAppend(x: seq<string>, y: seq<string>, sym: map<string, Word>, target: Word)
    ensures FindLabel(x + y, sym, target)
            == match FindLabel(x, sym, target)
               case Some(k) => Some(k)
               case None => (match FindLabel(y, sym, target)
                             case Some(j) => Some(|x| + j)
                             case None => None)
    decreases |x|
  {
    if x == [] {
      assert x + y == y;
    } else {
      assert (x + y)[0] == x[0];
      assert (x + y)[1..] == x[1..] + y;
      FindLabelAppend(x[1..], y, sym, target);
    }
  }

  /** Running two blocks one after the other: the second starts where the
      first fell through, or at the label a jump out of the first names. */
  lemma {:induction false} ExecAppend(x: seq<string>, y: seq<string>, sym: map<string, Word>, s: State)
    ensures Exec(x + y, sym, s) == Then(Exec(x, sym, s), y, sym)
    decreases |x|, 2
  {
    if x == [] {
      assert x + y == y;
    } else {
      assert (x + y)[0] == x[0];
      assert (x + y)[1..] == x[1..] + y;
      match Step(x[0], sym, s)
      case Fault =>
      case Next(s') =>
        ExecAppend(x[1..], y, sym, s');
      case Branch(s', target) =>
        ExecAppendJump(x, y, sym, s', target);
    }
  }

  /** The case of `ExecAppend` where the first line of `x` jumps. */
  lemma {:induction false} ExecAppendJump(x: seq<string>, y: seq<string>, sym: map<string, Word>, s': State, target: Word)
    requires x != []
    ensures Then(Resume(x[1..], sym, s', target), y, sym) == Resume(x[1..] + y, sym, s', target)
    decreases |x|, 1
  {
    var r := x[1..];
    FindLabelAppend(r, y, sym, target);
    if FindLabel(r, sym, target).Some? {
      ExecAppendLanding(x, y, sym, s', target, FindLabel(r, sym, target).value);
    } else {
      ExecAppendPast(x, y, sym, s', target);
    }
  }

  /** The jump lands past `x`, in `y` or nowhere. */
  lemma ExecAppendPast(x: seq<string>, y: seq<string>, sym: map<string, Word>, s': State, target: Word)
    requires x != [] && FindLabel(x[1..], sym, target) == None
    requires FindLabel(x[1..] + y, sym, target)
             == match FindLabel(y, sym, target) case Some(j) => Some(|x[1..]| + j) case None => None
    ensures Then(Resume(x[1..], sym, s', target), y, sym) == Resume(x[1..] + y, sym, s', target)
  {
    var r := x[1..];
    assert Resume(r, sym, s', target) == Jumped(s', target);
    ResumeShifted(r, y, sym, s', target);
  }

  /** When the label is not in `r`, resuming after `r + y` is resuming in `y`. */
  lemma ResumeShifted(r: seq<string>, y: seq<string>, sym: map<string, Word>, s: State, target: Word)
    requires FindLabel(r + y, sym, target)
             == match FindLabel(y, sym, target) case Some(j) => Some(|r| + j) case None => None
    ensures Resume(r + y, sym, s, target) == Resume(y, sym, s, target)
  {
    match FindLabel(y, sym, target)
    case None =>
      assert FindLabel(r + y, sym, target) == None;
    case Some(j) =>
      assert FindLabel(r + y, sym, target) == Some(|r| + j);
      DropPast(r, y, j);
      ResumeLands(r + y, |r| + j, y[j..], sym, s, target);
      ResumeLands(y, j, y[j..], sym, s, target);
  }

  /** A jump whose label was found at line `k` of `rest` continues with the
      lines from `k` on. */
  lemma ResumeLands(rest: seq<string>, k: nat, tail: seq<string>, sym: map<string, Word>, s: State, target: Word)
    requires FindLabel(rest, sym, target) == Some(k) && rest[k..] == tail
    ensures Resume(rest, sym, s, target) == Exec(tail, sym, s)
  {
  }

  /** The jump lands inside `x`: the rest of `x` and then `y` run from there. */
  lemma {:induction false} ExecAppendLanding(x: seq<string>, y: seq<string>, sym: map<string, Word>, s': State, target: Word, k: nat)
    requires x != [] && FindLabel(x[1..], sym, target) == Some(k)
    requires FindLabel(x[1..] + y, sym, target) == Some(k)
    ensures Then(Resume(x[1..], sym, s', target), y, sym) == Resume(x[1..] + y, sym, s', target)
    decreases |x|, 0
  {
    var r := x[1..];
    DropWithin(r, y, k);
    ExecAppend(r[k..], y, sym, s');
  }

  lemma DropPast<T>(x: seq<T>, y: seq<T>, j: nat)
    requires j <= |y|
    ensures (x + y)[|x| + j..] == y[j..]
  {
  }

  lemma DropWithin<T>(x: seq<T>, y: seq<T>, k: nat)
    requires k <= |x|
    ensures (x + y)[k..] == x[k..] + y
  {
  }

  /** A block whose every line was walked over by the `At` lemmas. */
  lemma EndOfBlock(lines: seq<string>, i: nat, sym: map<string, Word>, s: State)
    requires i == |lines|
    ensures Exec(lines[i..], sym, s) == Fell(s)
  {
    assert lines[i..] == [];
  }

  // ---------------------------------------------------------------------------
  // Calls
  // ---------------------------------------------------------------------------

  /** The state after one base pointer of the caller was pushed. */
  function SavePointerSteps(s: State, p: Word): State {
    PushSteps(s.(a := p, d := Read(s.ram, p)))
  }

  /** `@x`, `D=M`: D holds the cell `x` names. */
  lemma ReadAt(lines: seq<string>, i: nat, x: string, p: Word, sym: map<string, Word>, s: State)
    requires i + 2 <= |lines| && LoadsSymbol(lines[i], x) && Resolve(x, sym) == Some(p)
    requires lines[i + 1] == "D=M" || lines[i + 1] == "D=M\n"
    ensures Exec(lines[i..], sym, s) == Exec(lines[i + 2..], sym, s.(a := p, d := Read(s.ram, p)))
  {
    LoadAt(lines, i, x, p, sym, s);
    DEqMAt(lines, i + 1, sym, s.(a := p));
  }

  /** `@x`, `M=D`: the cell `x` names takes D. */
  lemma StoreAt(lines: seq<string>, i: nat, x: string, p: Word, sym: map<string, Word>, s: State)
    requires i + 2 <= |lines| && LoadsSymbol(lines[i], x) && Resolve(x, sym) == Some(p)
    requires lines[i + 1] == "M=D" || lines[i + 1] == "M=D\n"
    ensures Exec(lines[i..], sym, s) == Exec(lines[i + 2..], sym, s.(a := p, ram := Write(s.ram, p, s.d)))
  {
    LoadAt(lines, i, x, p, sym, s);
    MEqDAt(lines, i + 1, sym, s.(a := p));
  }

  lemma SavePointerAt(lines: seq<string>, i: nat, symbol: string, p: Word, sym: map<string, Word>, s: State)
    requires i + 3 <= |lines| && IsComment(lines[i]) && LoadsSymbol(lines[i + 1], symbol)
    requires Resolve(symbol, sym) == Some(p) && lines[i + 2] == "D=M"
    requires lines[i + 3..] == PushTemplate()
    ensures Exec(lines[i..], sym, s) == Fell(SavePointerSteps(s, p))
  {
    CommentAt(lines, i, sym, s);
    ReadAt(lines, i + 1, symbol, p, sym, s);
    PushTemplateRuns(lines[i + 3..], sym, s.(a := p, d := Read(s.ram, p)));
  }

  lemma SavePointerEffect(symbol: string, p: Word, sym: map<string, Word>, s: State)
    requires LoadsSymbol("@" + symbol, symbol) && Resolve(symbol, sym) == Some(p)
    ensures Exec(SavePointer(symbol), sym, s) == Fell(SavePointerSteps(s, p))
  {
    var lines := SavePointer(symbol);
    assert lines[0..] == lines && lines[3..] == PushTemplate();
    SavePointerAt(lines, 0, symbol, p, sym, s);
  }

  lemma PointerSymbols(sym: map<string, Word>)
    ensures LoadsSymbol("@LCL", "LCL") && Resolve("LCL", sym) == Some(1)
    ensures LoadsSymbol("@ARG", "ARG") && Resolve("ARG", sym) == Some(2)
    ensures LoadsSymbol("@THIS", "THIS") && Resolve("THIS", sym) == Some(3)
    ensures LoadsSymbol("@THAT", "THAT") && Resolve("THAT", sym) == Some(4)
  {
    ResolvePointer("LCL", sym);
    ResolvePointer("ARG", sym);
    ResolvePointer("THIS", sym);
    ResolvePointer("THAT", sym);
  }

  /** The return label loads the address the assembler gave it. */
  lemma ResolveReturnLabel(k: nat, sym: map<string, Word>)
    requires ReturnLabel(k) in sym
    ensures Resolve(ReturnLabel(k), sym) == Some(sym[ReturnLabel(k)])
    ensures LoadsSymbol("@" + ReturnLabel(k), ReturnLabel(k))
  {
    var x := ReturnLabel(k);
    assert x[0] == 'R' && x[1] == 'A';
    ResolveLabel(x, sym);
    GeneratedLabelsAreWords(k);
    assert !IsSpace(x[|x| - 1]);
  }

  /** `@RA$k`, `D=A` and the push template push the return address. */
  lemma ReturnAddressEffect(k: nat, sym: map<string, Word>, s: State)
    requires ReturnLabel(k) in sym
    ensures var r := sym[ReturnLabel(k)];
            Exec(["//  push returnAddress", "@" + ReturnLabel(k), "D=A"] + PushTemplate(), sym, s)
            == Fell(PushSteps(s.(a := r, d := r)))
  {
    var head := ["//  push returnAddress", "@" + ReturnLabel(k), "D=A"];
    var lines := head + PushTemplate();
    assert lines[0] == head[0] && lines[1] == head[1] && lines[2] == head[2];
    assert lines[3..] == PushTemplate();
    ResolveReturnLabel(k, sym);
    PushAddressAt(lines, ReturnLabel(k), sym[ReturnLabel(k)], sym, s);
  }

  /** A comment, `@x`, `D=A` and the push template push the address `x`
      names. */
  lemma PushAddressAt(lines: seq<string>, x: string, r: Word, sym: map<string, Word>, s: State)
    requires |lines| >= 3 && IsComment(lines[0]) && LoadsSymbol(lines[1], x)
    requires Resolve(x, sym) == Some(r) && lines[2] == "D=A"
    requires lines[3..] == PushTemplate()
    ensures Exec(lines, sym, s) == Fell(PushSteps(s.(a := r, d := r)))
  {
    LoadAddressAt(lines, x, r, sym, s);
    PushTemplateRuns(lines[3..], sym, s.(a := r, d := r));
  }

  lemma LoadAddressAt(lines: seq<string>, x: string, r: Word, sym: map<string, Word>, s: State)
    requires |lines| >= 3 && IsComment(lines[0]) && LoadsSymbol(lines[1], x)
    requires Resolve(x, sym) == Some(r) && lines[2] == "D=A"
    ensures Exec(lines, sym, s) == Exec(lines[3..], sym, s.(a := r, d := r))
  {
    CommentAt(lines, 0, sym, s);
    LoadAt(lines, 1, x, r, sym, s);
    DEqAAt(lines, 2, sym, s.(a := r));
    assert lines[0..] == lines;
  }

  /** The state after the caller's frame was saved. */
  function SaveFrameSteps(s: State, r: Word): State {
    SavePointerSteps(SavePointerSteps(SaveHeadSteps(s, r), 3), 4)
  }

  /** The state after the return address, LCL and ARG were pushed. */
  function SaveHeadSteps(s: State, r: Word): State {
    SavePointerSteps(SavePointerSteps(PushSteps(s.(a := r, d := r)), 1), 2)
  }

  lemma SaveFrameEffect(k: nat, sym: map<string, Word>, s: State)
    requires ReturnLabel(k) in sym
    ensures Exec(SaveFrame(k), sym, s) == Fell(SaveFrameSteps(s, sym[ReturnLabel(k)]))
  {
    var r := sym[ReturnLabel(k)];
    var x0 := ["//  push returnAddress", "@" + ReturnLabel(k), "D=A"] + PushTemplate();
    var x1 := x0 + SavePointer("LCL");
    var x2 := x1 + SavePointer("ARG");
    var x3 := x2 + SavePointer("THIS");
    assert SaveFrame(k) == x3 + SavePointer("THAT");
    ReturnAddressEffect(k, sym, s);
    PointerSymbols(sym);
    var s1 := PushSteps(s.(a := r, d := r));
    ExecAppend(x0, SavePointer("LCL"), sym, s);
    SavePointerEffect("LCL", 1, sym, s1);
    var s2 := SavePointerSteps(s1, 1);
    ExecAppend(x1, SavePointer("ARG"), sym, s);
    SavePointerEffect("ARG", 2, sym, s2);
    var s3 := SavePointerSteps(s2, 2);
    ExecAppend(x2, SavePointer("THIS"), sym, s);
    SavePointerEffect("THIS", 3, sym, s3);
    var s4 := SavePointerSteps(s3, 3);
    ExecAppend(x3, SavePointer("THAT"), sym, s);
    SavePointerEffect("THAT", 4, sym, s4);
  }

  /** Saving a pointer pushes its value. */
  lemma SavePointerPushes(s: State, p: Word)
    requires Sane(s)
    ensures Pushed(s, SavePointerSteps(s, p), Read(s.ram, p))
  {
    var s' := s.(a := p, d := Read(s.ram, p));
    PushStepsPushes(s');
    PushedSameRam(s', s, PushSteps(s'), s'.d);
  }

  /** `s'` is `s` with the values `vs` pushed in order. */
  ghost predicate PushedAll(s: State, s': State, vs: seq<Word>) {
    && SP(s') as int == SP(s) as int + |vs|
    && (forall x: Word :: SP(s) <= x && x as int < SP(s) as int + |vs| ==> Read(s'.ram, x) == vs[(x - SP(s)) as int])
    && (forall x: Word :: x != 0 && !(SP(s) <= x && x as int < SP(s) as int + |vs|) ==> Read(s'.ram, x) == Read(s.ram, x))
  }

  lemma PushedAllOne(s: State, t: State, v: Word)
    requires Pushed(s, t, v) && SP(s) != 0
    ensures PushedAll(s, t, [v])
  {
  }

  /** Pushes of `vs` followed by a push of `v` push `vs` and then `v`. */
  lemma PushedAllExtend(s: State, t: State, u: State, vs: seq<Word>, v: Word)
    requires PushedAll(s, t, vs) && Pushed(t, u, v) && SP(s) != 0
    ensures PushedAll(s, u, vs + [v])
  {
    var ws := vs + [v];
    forall x: Word | SP(s) <= x && x as int < SP(s) as int + |ws|
      ensures Read(u.ram, x) == ws[(x - SP(s)) as int]
    {
      if x != SP(t) {
        assert x as int < SP(t) as int;
        assert Read(u.ram, x) == Read(t.ram, x);
      }
    }
  }

  /** One more base pointer saved on top of a partly saved frame. */
  lemma SavePointerExtends(s: State, t: State, vs: seq<Word>, p: Word)
    requires PushedAll(s, t, vs) && 256 <= SP(s) && Sane(t) && 1 <= p <= 4
    ensures PushedAll(s, SavePointerSteps(t, p), vs + [Read(s.ram, p)])
  {
    SavePointerPushes(t, p);
    assert Read(t.ram, p) == Read(s.ram, p);
    PushedAllExtend(s, t, SavePointerSteps(t, p), vs, Read(s.ram, p));
  }

  lemma SaveHeadFacts(s: State, r: Word)
    requires Room(s, 5)
    ensures PushedAll(s, SaveHeadSteps(s, r), [r, Read(s.ram, 1), Read(s.ram, 2)])
  {
    var s1 := PushSteps(s.(a := r, d := r));
    PushStepsPushes(s.(a := r, d := r));
    PushedSameRam(s.(a := r, d := r), s, s1, r);
    PushedAllOne(s, s1, r);
    SavePointerExtends(s, s1, [r], 1);
    SavePointerExtends(s, SavePointerSteps(s1, 1), [r, Read(s.ram, 1)], 2);
  }

  /** The saved frame: the return address, then LCL, ARG, THIS and THAT of
      the caller, pushed in that order. */
  lemma SaveFrameFacts(s: State, r: Word)
    requires Room(s, 5)
    ensures PushedAll(s, SaveFrameSteps(s, r), [r, Read(s.ram, 1), Read(s.ram, 2), Read(s.ram, 3), Read(s.ram, 4)])
  {
    var s3 := SaveHeadSteps(s, r);
    SaveHeadFacts(s, r);
    SavePointerExtends(s, s3, [r, Read(s.ram, 1), Read(s.ram, 2)], 3);
    SavePointerExtends(s, SavePointerSteps(s3, 3), [r, Read(s.ram, 1), Read(s.ram, 2), Read(s.ram, 3)], 4);
  }

  /** The saved frame, cell by cell. */
  ghost predicate Saved(s: State, s': State, ret: Word) {
    var p := SP(s);
    && SP(s') as int == p as int + 5
    && Read(s'.ram, p) == ret
    && Read(s'.ram, Add(p, 1)) == Read(s.ram, 1) && Read(s'.ram, Add(p, 2)) == Read(s.ram, 2)
    && Read(s'.ram, Add(p, 3)) == Read(s.ram, 3) && Read(s'.ram, Add(p, 4)) == Read(s.ram, 4)
    && SameExcept(s, s', {0, p, Add(p, 1), Add(p, 2), Add(p, 3), Add(p, 4)})
  }

  lemma SaveFrameSaved(s: State, r: Word)
    requires Room(s, 5)
    ensures Saved(s, SaveFrameSteps(s, r), r)
  {
    var vs := [r, Read(s.ram, 1), Read(s.ram, 2), Read(s.ram, 3), Read(s.ram, 4)];
    SaveFrameFacts(s, r);
    PushedFiveCells(s, SaveFrameSteps(s, r), vs);
    PushedFiveRest(s, SaveFrameSteps(s, r), vs);
  }

  lemma PushedFiveCells(s: State, t: State, vs: seq<Word>)
    requires PushedAll(s, t, vs) && |vs| == 5 && SP(s) as int + 5 <= 0x4000
    ensures var p := SP(s);
            && Read(t.ram, p) == vs[0] && Read(t.ram, Add(p, 1)) == vs[1] && Read(t.ram, Add(p, 2)) == vs[2]
            && Read(t.ram, Add(p, 3)) == vs[3] && Read(t.ram, Add(p, 4)) == vs[4]
  {
    var p := SP(s);
    assert Add(p, 1) - p == 1 && Add(p, 2) - p == 2 && Add(p, 3) - p == 3 && Add(p, 4) - p == 4;
  }

  lemma PushedFiveRest(s: State, t: State, vs: seq<Word>)
    requires PushedAll(s, t, vs) && |vs| == 5 && SP(s) as int + 5 <= 0x4000
    ensures var p := SP(s);
            SameExcept(s, t, {0, p, Add(p, 1), Add(p, 2), Add(p, 3), Add(p, 4)})
  {
    var p := SP(s);
    forall x | x !in {0, p, Add(p, 1), Add(p, 2), Add(p, 3), Add(p, 4)}
      ensures Read(t.ram, x) == Read(s.ram, x)
    {
      assert !(p <= x && x as int < p as int + 5);
    }
  }

  /** The state `ARG = SP-5-nArgs` leaves. */
  function ArgSteps(s: State, nArgs: nat): State
    requires 5 + nArgs < 0x8000
  {
    var v := Sub(SP(s), (5 + nArgs) as Word);
    s.(a := 2, d := v, ram := Write(s.ram, 2, v))
  }

  /** `ARG = SP-5-nArgs`, first half: D holds `5 + nArgs`. */
  lemma ArgOffsetEffect(nArgs: nat, sym: map<string, Word>, s: State)
    requires 5 + nArgs < 0x8000
    ensures Exec(["//  ARG = SP-5-nArgs", "@" + NatToString(5 + nArgs), "D=A"], sym, s)
            == Fell(s.(a := (5 + nArgs) as Word, d := (5 + nArgs) as Word))
  {
    var lines := ["//  ARG = SP-5-nArgs", "@" + NatToString(5 + nArgs), "D=A"];
    var n := 5 + nArgs;
    CommentAt(lines, 0, sym, s);
    LoadNatAt(lines, 1, n, sym, s);
    DEqAAt(lines, 2, sym, s.(a := n as Word));
    EndOfBlock(lines, 3, sym, s.(a := n as Word, d := n as Word));
  }

  /** `ARG = SP-5-nArgs`, second half: ARG set to SP minus D. */
  lemma ArgStoreEffect(sym: map<string, Word>, s: State)
    ensures Exec(["@SP", "D=M-D", "@ARG", "M=D\n"], sym, s)
            == Fell(s.(a := 2, d := Sub(SP(s), s.d), ram := Write(s.ram, 2, Sub(SP(s), s.d))))
  {
    var lines := ["@SP", "D=M-D", "@ARG", "M=D\n"];
    LoadSPAt(lines, 0, sym, s);
    DEqMMinusDAt(lines, 1, sym, s.(a := 0));
    var s2 := s.(a := 0, d := Sub(SP(s), s.d));
    LoadsPointer("ARG");
    ResolvePointer("ARG", sym);
    LoadAt(lines, 2, "ARG", 2, sym, s2);
    MEqDAt(lines, 3, sym, s2.(a := 2));
    EndOfBlock(lines, 4, sym, s2.(a := 2, ram := Write(s2.ram, 2, s2.d)));
  }

  lemma RepositionArgEffect(nArgs: nat, sym: map<string, Word>, s: State)
    requires 5 + nArgs < 0x8000
    ensures Exec(RepositionArg(nArgs), sym, s) == Fell(ArgSteps(s, nArgs))
  {
    var head := ["//  ARG = SP-5-nArgs", "@" + NatToString(5 + nArgs), "D=A"];
    var tail := ["@SP", "D=M-D", "@ARG", "M=D\n"];
    assert RepositionArg(nArgs) == head + tail;
    ExecAppend(head, tail, sym, s);
    ArgOffsetEffect(nArgs, sym, s);
    ArgStoreEffect(sym, s.(a := (5 + nArgs) as Word, d := (5 + nArgs) as Word));
  }

  /** The state `LCL = SP` leaves. */
  function LclSteps(s: State): State {
    s.(a := 1, d := SP(s), ram := Write(s.ram, 1, SP(s)))
  }

  lemma RepositionLclEffect(sym: map<string, Word>, s: State)
    ensures Exec(RepositionLcl(), sym, s) == Fell(LclSteps(s))
  {
    var lines := RepositionLcl();
    CommentAt(lines, 0, sym, s);
    ResolveSP(sym);
    ReadAt(lines, 1, "SP", 0, sym, s);
    PointerSymbols(sym);
    StoreAt(lines, 3, "LCL", 1, sym, s.(a := 0, d := SP(s)));
    EndOfBlock(lines, 5, sym, LclSteps(s));
  }

  /** The return label after the jump is not where the jump goes: the block
      is left. */
  lemma PastReturnLabel(k: nat, t: Word, sym: map<string, Word>, s: State)
    requires ReturnLabel(k) in sym && sym[ReturnLabel(k)] != t
    ensures Resume(WriteLabel(ReturnLabel(k)), sym, s, t) == Jumped(s, t)
  {
    var rest := WriteLabel(ReturnLabel(k));
    NotDeclaring(rest[0], sym, t);
    DeclaresOwn(rest[1], ReturnLabel(k), sym);
    assert rest[1..][1..] == [];
    assert FindLabel(rest[1..], sym, t) == None;
  }

  /** The state the call leaves before jumping: frame saved, ARG and LCL
      moved. */
  function CallSteps(s: State, r: Word, nArgs: nat): State
    requires 5 + nArgs < 0x8000
  {
    LclSteps(ArgSteps(SaveFrameSteps(s, r), nArgs))
  }

  /** The callee's frame: the return address `ret` and the caller's LCL,
      ARG, THIS and THAT pushed; ARG pointing at the first of the `nArgs`
      arguments below them; LCL pointing just above them; nothing else in
      RAM changed. */
  ghost predicate CallFrame(s: State, s': State, ret: Word, nArgs: nat) {
    var p := SP(s);
    && SP(s') as int == p as int + 5
    && Read(s'.ram, p) == ret
    && Read(s'.ram, Add(p, 1)) == Read(s.ram, 1) && Read(s'.ram, Add(p, 2)) == Read(s.ram, 2)
    && Read(s'.ram, Add(p, 3)) == Read(s.ram, 3) && Read(s'.ram, Add(p, 4)) == Read(s.ram, 4)
    && Read(s'.ram, 1) == Add(p, 5)
    && Read(s'.ram, 2) as int == (p as int - nArgs) % 0x1_0000
    && SameExcept(s, s', {0, 1, 2, p, Add(p, 1), Add(p, 2), Add(p, 3), Add(p, 4)})
  }

  /** Subtraction of words is subtraction modulo 2^16. */
  lemma SubModulo(x: Word, y: Word)
    ensures Sub(x, y) as int == (x as int - y as int) % 0x1_0000
  {
  }

  /** Moving ARG and LCL writes those two pointers and nothing else. */
  lemma RepositionFacts(s: State, nArgs: nat)
    requires 5 + nArgs < 0x8000
    ensures var u := LclSteps(ArgSteps(s, nArgs));
            && SP(u) == SP(s) && Read(u.ram, 1) == SP(s) && Read(u.ram, 2) == Sub(SP(s), (5 + nArgs) as Word)
            && forall x: Word :: x != 1 && x != 2 ==> Read(u.ram, x) == Read(s.ram, x)
  {
    var s6 := ArgSteps(s, nArgs);
    forall x: Word | x != 1 && x != 2 ensures Read(LclSteps(s6).ram, x) == Read(s.ram, x) {
      ReadWrite(s.ram, 2, x, s6.d);
      ReadWrite(s6.ram, 1, x, SP(s6));
    }
  }

  lemma RepositionFrame(s: State, s5: State, r: Word, nArgs: nat)
    requires Saved(s, s5, r) && Room(s, 5) && 5 + nArgs < 0x8000
    ensures CallFrame(s, LclSteps(ArgSteps(s5, nArgs)), r, nArgs)
  {
    RepositionFacts(s5, nArgs);
    SubModulo(SP(s5), (5 + nArgs) as Word);
    FrameAfterReposition(s, s5, LclSteps(ArgSteps(s5, nArgs)), r, nArgs);
  }

  lemma CallStepsFrame(s: State, r: Word, nArgs: nat)
    requires Room(s, 5) && 5 + nArgs < 0x8000
    ensures CallFrame(s, CallSteps(s, r, nArgs), r, nArgs)
  {
    SaveFrameSaved(s, r);
    RepositionFrame(s, SaveFrameSteps(s, r), r, nArgs);
  }

  lemma FrameAfterReposition(s: State, s5: State, u: State, ret: Word, nArgs: nat)
    requires Saved(s, s5, ret) && Room(s, 5)
    requires SP(u) == SP(s5) && Read(u.ram, 1) == SP(s5)
    requires Read(u.ram, 2) as int == (SP(s5) as int - (5 + nArgs)) % 0x1_0000
    requires forall x: Word :: x != 1 && x != 2 ==> Read(u.ram, x) == Read(s5.ram, x)
    ensures CallFrame(s, u, ret, nArgs)
  {
    var p := SP(s);
    assert Add(p, 1) as int == p as int + 1 && Add(p, 2) as int == p as int + 2;
    assert Add(p, 3) as int == p as int + 3 && Add(p, 4) as int == p as int + 4;
    assert Add(p, 5) as int == p as int + 5;
    assert Read(u.ram, p) == Read(s5.ram, p);
    assert Read(u.ram, Add(p, 1)) == Read(s5.ram, Add(p, 1));
    assert Read(u.ram, Add(p, 2)) == Read(s5.ram, Add(p, 2));
    assert Read(u.ram, Add(p, 3)) == Read(s5.ram, Add(p, 3));
    assert Read(u.ram, Add(p, 4)) == Read(s5.ram, Add(p, 4));
    forall x | x !in {0, 1, 2, p, Add(p, 1), Add(p, 2), Add(p, 3), Add(p, 4)}
      ensures Read(u.ram, x) == Read(s.ram, x)
    {
      assert Read(u.ram, x) == Read(s5.ram, x);
    }
  }

  /** `call f n` saves the caller's frame, points ARG at the arguments and
      LCL above the frame, and leaves the block for `f`; the return label it
      declares is where the callee comes back to. */
  lemma CallEffect(ctx: Ctx, functionName: string, nArgs: nat, t: Word, sym: map<string, Word>, s: State)
    requires IsWord(functionName) && Resolve(functionName, sym) == Some(t)
    requires ReturnLabel(ctx.returnAddress) in sym && sym[ReturnLabel(ctx.returnAddress)] != t
    requires 5 + nArgs < 0x8000 && Room(s, 5)
    ensures var o := Exec(WriteCall(ctx, functionName, nArgs).1, sym, s);
            && o.Jumped? && o.target == t
            && CallFrame(s, o.s, sym[ReturnLabel(ctx.returnAddress)], nArgs)
  {
    var k := ctx.returnAddress;
    var r := sym[ReturnLabel(k)];
    var c := "//  call " + functionName + NatToString(nArgs) + "\n";
    var x1 := [c] + SaveFrame(k);
    var x2 := x1 + RepositionArg(nArgs);
    var x3 := x2 + RepositionLcl();
    var x4 := x3 + WriteGoto(functionName);
    assert WriteCall(ctx, functionName, nArgs).1 == x4 + WriteLabel(ReturnLabel(k));
    assert IsComment(c);
    CommentAt([c], 0, sym, s);
    EndOfBlock([c], 1, sym, s);
    assert [c][0..] == [c];
    ExecAppend([c], SaveFrame(k), sym, s);
    SaveFrameEffect(k, sym, s);
    var s5 := SaveFrameSteps(s, r);
    ExecAppend(x1, RepositionArg(nArgs), sym, s);
    RepositionArgEffect(nArgs, sym, s5);
    ExecAppend(x2, RepositionLcl(), sym, s);
    RepositionLclEffect(sym, ArgSteps(s5, nArgs));
    var s7 := CallSteps(s, r, nArgs);
    ExecAppend(x3, WriteGoto(functionName), sym, s);
    GotoEffect(functionName, t, sym, s7);
    ExecAppend(x4, WriteLabel(ReturnLabel(k)), sym, s);
    PastReturnLabel(k, t, sym, s7.(a := t));
    CallStepsFrame(s, r, nArgs);
  }

  // ---------------------------------------------------------------------------
  // Bootstrap
  // ---------------------------------------------------------------------------

  /** The state `SP = 256` leaves. */
  function Boot(s: State): State {
    s.(a := 0, d := 256, ram := Write(s.ram, 0, 256))
  }

  lemma BootAt(lines: seq<string>, i: nat, sym: map<string, Word>, s: State)
    requires i + 5 <= |lines| && IsComment(lines[i]) && lines[i + 1] == "@" + NatToString(256)
    requires lines[i + 2] == "D=A" && lines[i + 3] == "@SP" && lines[i + 4] == "M=D\n"
    ensures Exec(lines[i..], sym, s) == Exec(lines[i + 5..], sym, Boot(s))
  {
    CommentAt(lines, i, sym, s);
    LoadNatAt(lines, i + 1, 256, sym, s);
    DEqAAt(lines, i + 2, sym, s.(a := 256));
    ResolveSP(sym);
    StoreAt(lines, i + 3, "SP", 0, sym, s.(a := 256, d := 256));
  }

  lemma BootEffect(sym: map<string, Word>, s: State)
    ensures Exec(["// VM initialization (bootstrap code)", "@256", "D=A", "@SP", "M=D\n"], sym, s) == Fell(Boot(s))
  {
    var lines := ["// VM initialization (bootstrap code)", "@256", "D=A", "@SP", "M=D\n"];
    assert NatToString(256) == NatToString(25) + [Digit(6)] == NatToString(2) + [Digit(5)] + [Digit(6)];
    BootAt(lines, 0, sym, s);
    assert lines[0..] == lines;
    EndOfBlock(lines, 5, sym, Boot(s));
  }

  /** `Sys.init` is neither a number, a register nor a predefined symbol. */
  lemma ResolveSysInit(sym: map<string, Word>)
    requires "Sys.init" in sym
    ensures IsWord("Sys.init") && Resolve("Sys.init", sym) == Some(sym["Sys.init"])
  {
    assert !IsDigit("Sys.init"[0]) && "Sys.init"[0] != 'R';
    assert "Sys.init" !in Predefined;
  }

  /** The bootstrap code sets the stack pointer to 256 and calls `Sys.init`
      with no arguments: the call frame sits at 256-260, ARG is 256 and
      LCL and SP are 261. */
  /** The bootstrap lines run first and then hand the call its state. */
  lemma InitRuns(ctx: Ctx, sym: map<string, Word>, s: State)
    ensures Exec(WriteInit(ctx).1, sym, s) == Exec(WriteCall(ctx, "Sys.init", 0).1, sym, Boot(s))
  {
    var boot := ["// VM initialization (bootstrap code)", "@256", "D=A", "@SP", "M=D\n"];
    var call := WriteCall(ctx, "Sys.init", 0).1;
    assert WriteInit(ctx).1 == boot + call;
    ExecAppend(boot, call, sym, s);
    BootEffect(sym, s);
  }

  /** After the bootstrap the frame the call builds sits at 256. */
  lemma BootFrame(s: State, s': State, ret: Word)
    requires CallFrame(Boot(s), s', ret, 0)
    ensures SP(s') == 261 && Read(s'.ram, 1) == 261 && Read(s'.ram, 2) == 256
  {
    assert SP(Boot(s)) == 256;
  }

  /** The bootstrap code sets SP to 256 and calls `Sys.init` with no
      arguments: it builds a call frame at 256 and jumps to `Sys.init`. */
  lemma InitEffect(ctx: Ctx, sym: map<string, Word>, s: State)
    requires "Sys.init" in sym && ReturnLabel(ctx.returnAddress) in sym
    requires sym[ReturnLabel(ctx.returnAddress)] != sym["Sys.init"]
    ensures var o := Exec(WriteInit(ctx).1, sym, s);
            && o.Jumped? && o.target == sym["Sys.init"]
            && CallFrame(Boot(s), o.s, sym[ReturnLabel(ctx.returnAddress)], 0)
            && SP(o.s) == 261 && Read(o.s.ram, 1) == 261 && Read(o.s.ram, 2) == 256
  {
    InitRuns(ctx, sym, s);
    ResolveSysInit(sym);
    CallEffect(ctx, "Sys.init", 0, sym["Sys.init"], sym, Boot(s));
    var o := Exec(WriteInit(ctx).1, sym, s);
    BootFrame(s, o.s, sym[ReturnLabel(ctx.returnAddress)]);
  }

  // ---------------------------------------------------------------------------
  // Returns
  // ---------------------------------------------------------------------------

  /** `frame = LCL`, kept in R14. */
  function FrameSteps(s: State): State {
    var lcl := Read(s.ram, 1);
    s.(a := 14, d := lcl, ram := Write(s.ram, 14, lcl))
  }

  /** `retAddr = *(frame-5)`, kept in R15; D holds the frame on entry. */
  function RetAddrSteps(s: State): State {
    var v := Read(s.ram, Sub(s.d, 5));
    s.(a := 15, d := v, ram := Write(s.ram, 15, v))
  }

  /** `*ARG = pop()`. */
  function PopToArgSteps(s: State): State {
    var t := PopSteps(s);
    var arg := Read(t.ram, 2);
    t.(a := arg, d := arg, ram := Write(t.ram, arg, t.d))
  }

  /** `SP = ARG+1`; D holds ARG on entry. */
  function SetSPSteps(s: State): State {
    s.(a := 0, ram := Write(s.ram, 0, Add(s.d, 1)))
  }

  /** `R14--; pointer = *R14`. */
  function RestoreSteps(s: State, p: Word): State {
    var f := Sub(Read(s.ram, 14), 1);
    var r1 := Write(s.ram, 14, f);
    s.(a := p, d := Read(r1, f), ram := Write(r1, p, Read(r1, f)))
  }

  function PrologueSteps(s: State): State {
    SetSPSteps(PopToArgSteps(RetAddrSteps(FrameSteps(s))))
  }

  function EpilogueSteps(s: State): State {
    RestoreSteps(RestoreSteps(RestoreSteps(RestoreSteps(s, 4), 3), 2), 1)
  }

  /** `LCL` itself. */
  lemma LclSymbol(sym: map<string, Word>)
    ensures LoadsSymbol("@LCL", "LCL") && Resolve("LCL", sym) == Some(1)
  {
    ResolvePointer("LCL", sym);
  }

  lemma FrameHeadAt(lines: seq<string>, i: nat, sym: map<string, Word>, s: State)
    requires i + 4 <= |lines| && IsComment(lines[i]) && IsComment(lines[i + 1])
    requires lines[i + 2] == "@LCL" && lines[i + 3] == "D=M"
    ensures Exec(lines[i..], sym, s) == Exec(lines[i + 4..], sym, s.(a := 1, d := Read(s.ram, 1)))
  {
    CommentAt(lines, i, sym, s);
    CommentAt(lines, i + 1, sym, s);
    LclSymbol(sym);
    ReadAt(lines, i + 2, "LCL", 1, sym, s);
  }

  lemma FrameAt(lines: seq<string>, i: nat, sym: map<string, Word>, s: State)
    requires i + 6 <= |lines| && IsComment(lines[i]) && IsComment(lines[i + 1])
    requires lines[i + 2] == "@LCL" && lines[i + 3] == "D=M" && lines[i + 4] == "@R14" && lines[i + 5] == "M=D\n"
    ensures Exec(lines[i..], sym, s) == Exec(lines[i + 6..], sym, FrameSteps(s))
  {
    FrameHeadAt(lines, i, sym, s);
    assert LoadsSymbol(lines[i + 4], "R14");
    ResolveScratch("R14", 14, sym);
    StoreAt(lines, i + 4, "R14", 14, sym, s.(a := 1, d := Read(s.ram, 1)));
  }

  lemma FrameEffect(sym: map<string, Word>, s: State)
    ensures Exec(["// return", "// frame=LCL\n", "@LCL", "D=M", "@R14", "M=D\n"], sym, s) == Fell(FrameSteps(s))
  {
    var lines := ["// return", "// frame=LCL\n", "@LCL", "D=M", "@R14", "M=D\n"];
    FrameAt(lines, 0, sym, s);
    assert lines[0..] == lines;
    EndOfBlock(lines, 6, sym, FrameSteps(s));
  }

  lemma RetAddrHeadAt(lines: seq<string>, i: nat, sym: map<string, Word>, s: State)
    requires i + 3 <= |lines| && IsComment(lines[i]) && lines[i + 1] == "@" + NatToString(5)
    requires lines[i + 2] == "A=D-A"
    ensures Exec(lines[i..], sym, s) == Exec(lines[i + 3..], sym, s.(a := Sub(s.d, 5)))
  {
    CommentAt(lines, i, sym, s);
    LoadNatAt(lines, i + 1, 5, sym, s);
    AEqDMinusAAt(lines, i + 2, sym, s.(a := 5));
  }

  lemma RetAddrAt(lines: seq<string>, i: nat, sym: map<string, Word>, s: State)
    requires i + 6 <= |lines| && IsComment(lines[i]) && lines[i + 1] == "@" + NatToString(5)
    requires lines[i + 2] == "A=D-A" && lines[i + 3] == "D=M" && lines[i + 4] == "@R15" && lines[i + 5] == "M=D\n"
    ensures Exec(lines[i..], sym, s) == Exec(lines[i + 6..], sym, RetAddrSteps(s))
  {
    RetAddrHeadAt(lines, i, sym, s);
    var s2 := s.(a := Sub(s.d, 5));
    DEqMAt(lines, i + 3, sym, s2);
    assert LoadsSymbol(lines[i + 4], "R15");
    ResolveScratch("R15", 15, sym);
    StoreAt(lines, i + 4, "R15", 15, sym, s2.(d := Read(s.ram, Sub(s.d, 5))));
  }

  lemma RetAddrEffect(sym: map<string, Word>, s: State)
    ensures Exec(["// retAddr = *(frame-5)", "@5", "A=D-A", "D=M", "@R15", "M=D\n"], sym, s) == Fell(RetAddrSteps(s))
  {
    var lines := ["// retAddr = *(frame-5)", "@5", "A=D-A", "D=M", "@R15", "M=D\n"];
    RetAddrAt(lines, 0, sym, s);
    assert lines[0..] == lines;
    EndOfBlock(lines, 6, sym, RetAddrSteps(s));
  }

  lemma PopToArgAt(lines: seq<string>, i: nat, sym: map<string, Word>, s: State)
    requires i + 8 <= |lines| && IsComment(lines[i]) && lines[i + 1] == "@SP" && lines[i + 2] == "AM=M-1"
    requires lines[i + 3] == "D=M\n" && lines[i + 4] == "@ARG" && lines[i + 5] == "A=M"
    requires lines[i + 6] == "M=D" && lines[i + 7] == "D=A"
    ensures Exec(lines[i..], sym, s) == Exec(lines[i + 8..], sym, PopToArgSteps(s))
  {
    CommentAt(lines, i, sym, s);
    PopTopAt(lines, i + 1, sym, s);
    var t := PopSteps(s);
    PointerSymbols(sym);
    LoadAt(lines, i + 4, "ARG", 2, sym, t);
    AEqMAt(lines, i + 5, sym, t.(a := 2));
    var arg := Read(t.ram, 2);
    MEqDAt(lines, i + 6, sym, t.(a := arg));
    DEqAAt(lines, i + 7, sym, t.(a := arg, ram := Write(t.ram, arg, t.d)));
  }

  lemma PopToArgEffect(sym: map<string, Word>, s: State)
    ensures Exec(["// *ARG=pop()", "@SP", "AM=M-1", "D=M\n", "@ARG", "A=M", "M=D", "D=A"], sym, s)
            == Fell(PopToArgSteps(s))
  {
    var lines := ["// *ARG=pop()", "@SP", "AM=M-1", "D=M\n", "@ARG", "A=M", "M=D", "D=A"];
    PopToArgAt(lines, 0, sym, s);
    assert lines[0..] == lines;
    EndOfBlock(lines, 8, sym, PopToArgSteps(s));
  }

  lemma SetSPEffect(sym: map<string, Word>, s: State)
    ensures Exec(["// SP=ARG+1", "@SP", "M=D+1\n"], sym, s) == Fell(SetSPSteps(s))
  {
    var lines := ["// SP=ARG+1", "@SP", "M=D+1\n"];
    CommentAt(lines, 0, sym, s);
    LoadSPAt(lines, 1, sym, s);
    MEqDPlusOneAt(lines, 2, sym, s.(a := 0));
    EndOfBlock(lines, 3, sym, SetSPSteps(s));
  }

  lemma PrologueEffect(sym: map<string, Word>, s: State)
    ensures Exec(ReturnPrologue(), sym, s) == Fell(PrologueSteps(s))
  {
    var p1 := ["// return", "// frame=LCL\n", "@LCL", "D=M", "@R14", "M=D\n"];
    var p2 := ["// retAddr = *(frame-5)", "@5", "A=D-A", "D=M", "@R15", "M=D\n"];
    var p3 := ["// *ARG=pop()", "@SP", "AM=M-1", "D=M\n", "@ARG", "A=M", "M=D", "D=A"];
    var p4 := ["// SP=ARG+1", "@SP", "M=D+1\n"];
    assert ReturnPrologue() == p1 + p2 + p3 + p4;
    FrameEffect(sym, s);
    ExecAppend(p1, p2, sym, s);
    RetAddrEffect(sym, FrameSteps(s));
    ExecAppend(p1 + p2, p3, sym, s);
    PopToArgEffect(sym, RetAddrSteps(FrameSteps(s)));
    ExecAppend(p1 + p2 + p3, p4, sym, s);
    SetSPEffect(sym, PopToArgSteps(RetAddrSteps(FrameSteps(s))));
  }

  lemma RestoreAt(lines: seq<string>, i: nat, segment: string, p: Word, sym: map<string, Word>, s: State)
    requires i + 7 <= |lines| && IsComment(lines[i]) && lines[i + 1] == "@R14" && lines[i + 2] == "M=M-1"
    requires lines[i + 3] == "A=M" && lines[i + 4] == "D=M" && lines[i + 6] == "M=D\n"
    requires LoadsSymbol(lines[i + 5], segment) && Resolve(segment, sym) == Some(p)
    ensures Exec(lines[i..], sym, s) == Exec(lines[i + 7..], sym, RestoreSteps(s, p))
  {
    CommentAt(lines, i, sym, s);
    LoadScratchAt(lines, i + 1, 14, sym, s);
    DecMAt(lines, i + 2, sym, s.(a := 14));
    var f := Sub(Read(s.ram, 14), 1);
    var s2 := s.(a := 14, ram := Write(s.ram, 14, f));
    AEqMAt(lines, i + 3, sym, s2);
    ReadWrite(s.ram, 14, 14, f);
    DEqMAt(lines, i + 4, sym, s2.(a := f));
    StoreAt(lines, i + 5, segment, p, sym, s2.(a := f, d := Read(s2.ram, f)));
  }

  /** One restore block of the epilogue. */
  lemma RestoreEffect(comment: string, segment: string, p: Word, sym: map<string, Word>, s: State)
    requires IsComment(comment) && LoadsSymbol("@" + segment, segment) && Resolve(segment, sym) == Some(p)
    ensures Exec([comment] + ReturnTemplate(segment), sym, s) == Fell(RestoreSteps(s, p))
  {
    var lines := [comment] + ReturnTemplate(segment);
    RestoreAt(lines, 0, segment, p, sym, s);
    assert lines[0..] == lines;
    EndOfBlock(lines, 7, sym, RestoreSteps(s, p));
  }

  /** `goto retAddr`: the jump to the address kept in R15. */
  lemma ReturnJumpEffect(sym: map<string, Word>, s: State)
    ensures Exec(["// goto retAddr", "@R15", "A=M", "0;JMP\n"], sym, s)
            == Jumped(s.(a := Read(s.ram, 15)), Read(s.ram, 15))
  {
    var lines := ["// goto retAddr", "@R15", "A=M", "0;JMP\n"];
    CommentAt(lines, 0, sym, s);
    LoadScratchAt(lines, 1, 15, sym, s);
    AEqMAt(lines, 2, sym, s.(a := 15));
    JmpAt(lines, 3, sym, s.(a := Read(s.ram, 15)));
    assert lines[4..] == [];
  }

  /** Two restore blocks in a row. */
  lemma RestorePair(c1: string, seg1: string, p1: Word, c2: string, seg2: string, p2: Word,
                    sym: map<string, Word>, s: State)
    requires IsComment(c1) && LoadsSymbol("@" + seg1, seg1) && Resolve(seg1, sym) == Some(p1)
    requires IsComment(c2) && LoadsSymbol("@" + seg2, seg2) && Resolve(seg2, sym) == Some(p2)
    ensures Exec(([c1] + ReturnTemplate(seg1)) + ([c2] + ReturnTemplate(seg2)), sym, s)
            == Fell(RestoreSteps(RestoreSteps(s, p1), p2))
  {
    RestoreEffect(c1, seg1, p1, sym, s);
    ExecAppend([c1] + ReturnTemplate(seg1), [c2] + ReturnTemplate(seg2), sym, s);
    RestoreEffect(c2, seg2, p2, sym, RestoreSteps(s, p1));
  }

  /** The four restores of the epilogue. */
  lemma RestoresEffect(sym: map<string, Word>, s: State)
    ensures Exec((["// THAT=*(frame-1)"] + ReturnTemplate("THAT")) + (["// THIS=*(frame-2)"] + ReturnTemplate("THIS"))
                 + ((["// ARG=*(frame-3)"] + ReturnTemplate("ARG")) + (["// LCL=*(frame-4)"] + ReturnTemplate("LCL"))),
                 sym, s)
            == Fell(EpilogueSteps(s))
  {
    var x := (["// THAT=*(frame-1)"] + ReturnTemplate("THAT")) + (["// THIS=*(frame-2)"] + ReturnTemplate("THIS"));
    var y := (["// ARG=*(frame-3)"] + ReturnTemplate("ARG")) + (["// LCL=*(frame-4)"] + ReturnTemplate("LCL"));
    PointerSymbols(sym);
    RestorePair("// THAT=*(frame-1)", "THAT", 4, "// THIS=*(frame-2)", "THIS", 3, sym, s);
    ExecAppend(x, y, sym, s);
    RestorePair("// ARG=*(frame-3)", "ARG", 2, "// LCL=*(frame-4)", "LCL", 1, sym, RestoreSteps(RestoreSteps(s, 4), 3));
  }

  /** The epilogue puts back the caller's four pointers from the frame and
      jumps to the return address kept in R15. */
  lemma EpilogueEffect(sym: map<string, Word>, s: State)
    ensures var u := EpilogueSteps(s);
            Exec(ReturnEpilogue(), sym, s) == Jumped(u.(a := Read(u.ram, 15)), Read(u.ram, 15))
  {
    var x := (["// THAT=*(frame-1)"] + ReturnTemplate("THAT")) + (["// THIS=*(frame-2)"] + ReturnTemplate("THIS"));
    var y := (["// ARG=*(frame-3)"] + ReturnTemplate("ARG")) + (["// LCL=*(frame-4)"] + ReturnTemplate("LCL"));
    var j := ["// goto retAddr", "@R15", "A=M", "0;JMP\n"];
    assert ReturnEpilogue() == (x + y) + j;
    RestoresEffect(sym, s);
    ExecAppend(x + y, j, sym, s);
    ReturnJumpEffect(sym, EpilogueSteps(s));
  }

  /** The whole of `write_return`: the prologue, then the epilogue. */
  lemma ReturnRuns(sym: map<string, Word>, s: State)
    ensures var u := EpilogueSteps(PrologueSteps(s));
            Exec(WriteReturn(), sym, s) == Jumped(u.(a := Read(u.ram, 15)), Read(u.ram, 15))
  {
    ExecAppend(ReturnPrologue(), ReturnEpilogue(), sym, s);
    PrologueEffect(sym, s);
    EpilogueEffect(sym, PrologueSteps(s));
  }

  /** A frame a return can read: the stack holds the value returned, ARG
      lies at least five words below LCL (so the pop into `*ARG` cannot
      overwrite the saved pointers), and all of it lies above the registers. */
  predicate FrameOk(s: State) {
    var lcl, arg := Read(s.ram, 1), Read(s.ram, 2);
    && Holds(s, 1)
    && 256 <= arg as int
    && arg as int + 5 <= lcl as int
  }

  /** `s'` is what returning from the frame of `s` leaves: the value on top
      of the stack sits where the arguments began, the stack pointer is just
      above it, LCL, ARG, THIS and THAT hold the four words saved below LCL,
      and nothing else in RAM changed but the scratch registers R14, R15. */
  ghost predicate Returned(s: State, s': State) {
    var lcl, arg := Read(s.ram, 1), Read(s.ram, 2);
    && SP(s') == Add(arg, 1)
    && Read(s'.ram, arg) == Top(s)
    && Read(s'.ram, 4) == Read(s.ram, Sub(lcl, 1))
    && Read(s'.ram, 3) == Read(s.ram, Sub(lcl, 2))
    && Read(s'.ram, 2) == Read(s.ram, Sub(lcl, 3))
    && Read(s'.ram, 1) == Read(s.ram, Sub(lcl, 4))
    && SameExcept(s, s', {0, 1, 2, 3, 4, 14, 15, arg})
  }

  /** What the prologue leaves: the frame in R14, the return address in
      R15, the returned value at `*ARG` and SP just above it. */
  lemma PrologueFacts(s: State)
    requires FrameOk(s)
    ensures var u, lcl, arg := PrologueSteps(s), Read(s.ram, 1), Read(s.ram, 2);
            && Read(u.ram, 14) == lcl
            && Read(u.ram, 15) == Read(s.ram, Sub(lcl, 5))
            && Read(u.ram, arg) == Top(s)
            && SP(u) == Add(arg, 1)
            && SameExcept(s, u, {0, 14, 15, arg})
  {
    var f2 := RetAddrSteps(FrameSteps(s));
    assert Read(f2.ram, 0) == SP(s) && Read(f2.ram, 2) == Read(s.ram, 2);
    assert Read(f2.ram, Sub(SP(s), 1)) == Top(s);
  }

  /** One restore: R14 steps down to `f - 1` and the word there lands in
      pointer `p`. */
  lemma RestoreFacts(s: State, p: Word, f: Word)
    requires Read(s.ram, 14) == f && 17 <= f as int && 1 <= p as int <= 4
    ensures var t := RestoreSteps(s, p);
            && Read(t.ram, 14) == Sub(f, 1) && Sub(f, 1) as int == f as int - 1
            && Read(t.ram, p) == Read(s.ram, Sub(f, 1))
            && SameExcept(s, t, {p, 14})
  {
  }

  /** What the epilogue leaves, with the frame `lcl` in R14 on entry. */
  lemma EpilogueFacts(u: State, lcl: Word)
    requires Read(u.ram, 14) == lcl && 21 <= lcl as int
    ensures var v := EpilogueSteps(u);
            && Read(v.ram, 4) == Read(u.ram, Sub(lcl, 1))
            && Read(v.ram, 3) == Read(u.ram, Sub(lcl, 2))
            && Read(v.ram, 2) == Read(u.ram, Sub(lcl, 3))
            && Read(v.ram, 1) == Read(u.ram, Sub(lcl, 4))
            && SameExcept(u, v, {1, 2, 3, 4, 14})
  {
    var t1 := RestoreSteps(u, 4);
    RestoreFacts(u, 4, lcl);
    var t2 := RestoreSteps(t1, 3);
    RestoreFacts(t1, 3, Sub(lcl, 1));
    var t3 := RestoreSteps(t2, 2);
    RestoreFacts(t2, 2, Sub(Sub(lcl, 1), 1));
    RestoreFacts(t3, 1, Sub(Sub(Sub(lcl, 1), 1), 1));
  }

  /** The prologue's and the epilogue's effects compose into a return. */
  lemma ReturnCompose(s: State, u: State, v: State)
    requires FrameOk(s)
    requires var lcl, arg := Read(s.ram, 1), Read(s.ram, 2);
             && Read(u.ram, arg) == Top(s) && SP(u) == Add(arg, 1)
             && SameExcept(s, u, {0, 14, 15, arg})
             && Read(v.ram, 4) == Read(u.ram, Sub(lcl, 1))
             && Read(v.ram, 3) == Read(u.ram, Sub(lcl, 2))
             && Read(v.ram, 2) == Read(u.ram, Sub(lcl, 3))
             && Read(v.ram, 1) == Read(u.ram, Sub(lcl, 4))
             && SameExcept(u, v, {1, 2, 3, 4, 14})
    ensures Returned(s, v)
  {
    var lcl, arg := Read(s.ram, 1), Read(s.ram, 2);
    assert Read(u.ram, Sub(lcl, 1)) == Read(s.ram, Sub(lcl, 1));
    assert Read(u.ram, Sub(lcl, 2)) == Read(s.ram, Sub(lcl, 2));
    assert Read(u.ram, Sub(lcl, 3)) == Read(s.ram, Sub(lcl, 3));
    assert Read(u.ram, Sub(lcl, 4)) == Read(s.ram, Sub(lcl, 4));
    assert Read(v.ram, 0) == Read(u.ram, 0) && Read(v.ram, arg) == Read(u.ram, arg);
  }

  /** Prologue and epilogue together return from the frame. */
  lemma ReturnState(s: State)
    requires FrameOk(s)
    ensures var v := EpilogueSteps(PrologueSteps(s));
            && Returned(s, v.(a := Read(v.ram, 15)))
            && Read(v.ram, 15) == Read(s.ram, Sub(Read(s.ram, 1), 5))
  {
    var lcl := Read(s.ram, 1);
    var u := PrologueSteps(s);
    var v := EpilogueSteps(u);
    PrologueFacts(s);
    EpilogueFacts(u, lcl);
    ReturnCompose(s, u, v.(a := Read(v.ram, 15)));
  }

  /** `return` jumps to the return address saved five words below LCL,
      having put the returned value where the arguments began and the
      caller's pointers back. */
  lemma ReturnEffect(sym: map<string, Word>, s: State)
    requires FrameOk(s)
    ensures var o := Exec(WriteReturn(), sym, s);
            && o.Jumped? && o.target == Read(s.ram, Sub(Read(s.ram, 1), 5))
            && Returned(s, o.s)
  {
    ReturnRuns(sym, s);
    ReturnState(s);
  }

  /** The call/return round trip. After a call from `s0` built its frame
      (`s1`), let the callee run to any `s2` that leaves LCL, ARG and the
      five saved words as the call left them. Then the frame is one a return
      can read, the return goes back to the saved return address, and the
      state it leaves (`s3`) has the caller's LCL, ARG, THIS and THAT back,
      the value returned in place of the arguments and SP just above it. */
  lemma CallThenReturn(s0: State, s1: State, s2: State, s3: State, ret: Word, nArgs: nat)
    requires CallFrame(s0, s1, ret, nArgs)
    requires 256 + nArgs <= SP(s0) as int && SP(s0) as int + 5 < 0x1_0000
    requires Read(s2.ram, 1) == Read(s1.ram, 1) && Read(s2.ram, 2) == Read(s1.ram, 2)
    requires forall k: Word :: k <= 4 ==> Read(s2.ram, Add(SP(s0), k)) == Read(s1.ram, Add(SP(s0), k))
    requires Holds(s2, 1)
    ensures FrameOk(s2)
    ensures Read(s2.ram, Sub(Read(s2.ram, 1), 5)) == ret
    ensures Returned(s2, s3) ==>
              && Read(s3.ram, 1) == Read(s0.ram, 1) && Read(s3.ram, 2) == Read(s0.ram, 2)
              && Read(s3.ram, 3) == Read(s0.ram, 3) && Read(s3.ram, 4) == Read(s0.ram, 4)
              && SP(s3) as int == SP(s0) as int - nArgs + 1
              && Read(s3.ram, (SP(s0) as int - nArgs) as Word) == Top(s2)
  {
    var p := SP(s0);
    var lcl := Read(s2.ram, 1);
    assert lcl as int == p as int + 5;
    assert Read(s2.ram, 2) as int == p as int - nArgs;
    assert Sub(lcl, 5) == Add(p, 0) && Sub(lcl, 4) == Add(p, 1) && Sub(lcl, 3) == Add(p, 2);
    assert Sub(lcl, 2) == Add(p, 3) && Sub(lcl, 1) == Add(p, 4);
  }

  // ---------------------------------------------------------------------------
  // Any command
  // ---------------------------------------------------------------------------

  /** The machine state and symbol table under which the code of `cmd` has
      the effect `Effect` describes: the operands it pops are on a sane
      stack, the names it jumps to have addresses, and there is room for
      what it pushes. */
  predicate Ready(ctx: Ctx, cmd: Command, sym: map<string, Word>, s: State) {
    match cmd
    case Arithmetic(op) =>
      if IsComparison(op) then
        && Holds(s, 2)
        && TrueLabel(ctx.index) in sym && FalseLabel(ctx.index) in sym
        && sym[TrueLabel(ctx.index)] != sym[FalseLabel(ctx.index)]
      else op in {"add", "sub", "and", "or", "neg", "not"} && Holds(s, if op in {"neg", "not"} then 1 else 2)
    case Push(segment, offset) => IsPushSegment(segment) && InRange(ctx.fileName, segment, offset, sym) && Sane(s)
    case Pop(segment, offset) => IsPopSegment(segment) && InRange(ctx.fileName, segment, offset, sym) && Sane(s)
    case Label(_) => true
    case Goto(name) => IsWord(name) && Resolve(name, sym).Some?
    case IfGoto(name) => IsWord(name) && Resolve(name, sym).Some? && Holds(s, 1)
    case Function(_, nLocals) => Room(s, nLocals)
    case Call(name, nArgs) =>
      && IsWord(name) && Resolve(name, sym).Some?
      && ReturnLabel(ctx.returnAddress) in sym && sym[ReturnLabel(ctx.returnAddress)] != Resolve(name, sym).value
      && 5 + nArgs < 0x8000 && Room(s, 5)
    case Return => FrameOk(s)
  }

  /** What running the code of `cmd` from `s` does, by kind of command. */
  ghost predicate Effect(ctx: Ctx, cmd: Command, sym: map<string, Word>, s: State, o: Outcome) {
    match cmd
    case Arithmetic(op) =>
      && o.Fell?
      && (IsComparison(op) ==> Combined(s, o.s, Compare(op, Second(s), Top(s))))
      && (op in {"neg", "not"} ==> Replaced(s, o.s, Unary(op, Top(s))))
      && (op in {"add", "sub", "and", "or"} ==> Combined(s, o.s, Binary(op, Second(s), Top(s))))
    case Push(segment, offset) =>
      o.Fell? && Pushed(s, o.s, PushValue(ctx.fileName, segment, offset, sym, s))
    case Pop(segment, offset) =>
      var addr := SegmentAddress(ctx.fileName, segment, offset, sym, s);
      o.Fell? && addr.Some? && (addr.value != 0 ==> Popped(s, o.s, addr.value, {13}))
    case Label(_) => o == Fell(s)
    case Goto(name) =>
      Resolve(name, sym).Some? && o == Jumped(s.(a := Resolve(name, sym).value), Resolve(name, sym).value)
    case IfGoto(name) =>
      && Resolve(name, sym).Some?
      && var s' := PopSteps(s).(a := Resolve(name, sym).value);
         o == (if Top(s) != 0 then Jumped(s', Resolve(name, sym).value) else Fell(s'))
    case Function(_, nLocals) => o.Fell? && PushedZeros(s, o.s, nLocals)
    case Call(name, nArgs) =>
      && Resolve(name, sym).Some? && ReturnLabel(ctx.returnAddress) in sym
      && o.Jumped? && o.target == Resolve(name, sym).value
      && CallFrame(s, o.s, sym[ReturnLabel(ctx.returnAddress)], nArgs)
    case Return =>
      o.Jumped? && o.target == Read(s.ram, Sub(Read(s.ram, 1), 5)) && Returned(s, o.s)
  }

  /** The code the generator emits for any command does what its kind
      calls for, on every machine state that is ready for it. */
  lemma GenerateEffect(ctx: Ctx, cmd: Command, sym: map<string, Word>, s: State)
    requires Ready(ctx, cmd, sym, s)
    ensures Generate(ctx, cmd).Success?
    ensures Effect(ctx, cmd, sym, s, Exec(Generate(ctx, cmd).value.1, sym, s))
  {
    if cmd.Arithmetic? {
      GenerateArithmeticEffect(ctx, cmd, sym, s);
    } else if cmd.Push? || cmd.Pop? {
      GenerateStackEffect(ctx, cmd, sym, s);
    } else if cmd.Label? || cmd.Goto? || cmd.IfGoto? {
      GenerateBranchEffect(ctx, cmd, sym, s);
    } else {
      GenerateCallEffect(ctx, cmd, sym, s);
    }
  }

  lemma GenerateArithmeticEffect(ctx: Ctx, cmd: Command, sym: map<string, Word>, s: State)
    requires cmd.Arithmetic? && Ready(ctx, cmd, sym, s)
    ensures Generate(ctx, cmd).Success?
    ensures Effect(ctx, cmd, sym, s, Exec(Generate(ctx, cmd).value.1, sym, s))
  {
    var op := cmd.op;
    assert Generate(ctx, cmd) == WriteArithmetic(ctx, op);
    if IsComparison(op) {
      CompareEffect(ctx, op, sym, s);
    } else {
      ArithmeticEffect(ctx, op, sym, s);
    }
  }

  lemma GenerateStackEffect(ctx: Ctx, cmd: Command, sym: map<string, Word>, s: State)
    requires (cmd.Push? || cmd.Pop?) && Ready(ctx, cmd, sym, s)
    ensures Generate(ctx, cmd).Success?
    ensures Effect(ctx, cmd, sym, s, Exec(Generate(ctx, cmd).value.1, sym, s))
  {
    if cmd.Push? {
      assert Generate(ctx, cmd).value.1 == PushOperation(ctx, cmd.segment, cmd.offset).value;
      PushEffect(ctx, cmd.segment, cmd.offset, sym, s);
    } else {
      assert Generate(ctx, cmd).value.1 == PopOperation(ctx, cmd.segment, cmd.offset).value;
      PopEffect(ctx, cmd.segment, cmd.offset, sym, s);
    }
  }

  lemma GenerateBranchEffect(ctx: Ctx, cmd: Command, sym: map<string, Word>, s: State)
    requires (cmd.Label? || cmd.Goto? || cmd.IfGoto?) && Ready(ctx, cmd, sym, s)
    ensures Generate(ctx, cmd).Success?
    ensures Effect(ctx, cmd, sym, s, Exec(Generate(ctx, cmd).value.1, sym, s))
  {
    if cmd.Label? {
      assert Generate(ctx, cmd).value.1 == WriteLabel(cmd.name);
      LabelEffect(cmd.name, sym, s);
    } else if cmd.Goto? {
      assert Generate(ctx, cmd).value.1 == WriteGoto(cmd.name);
      GotoEffect(cmd.name, Resolve(cmd.name, sym).value, sym, s);
    } else {
      assert Generate(ctx, cmd).value.1 == WriteIfGoto(cmd.name);
      IfGotoEffect(cmd.name, Resolve(cmd.name, sym).value, sym, s);
    }
  }

  lemma GenerateCallEffect(ctx: Ctx, cmd: Command, sym: map<string, Word>, s: State)
    requires (cmd.Function? || cmd.Call? || cmd.Return?) && Ready(ctx, cmd, sym, s)
    ensures Generate(ctx, cmd).Success?
    ensures Effect(ctx, cmd, sym, s, Exec(Generate(ctx, cmd).value.1, sym, s))
  {
    if cmd.Function? {
      assert Generate(ctx, cmd).value.1 == WriteFunction(cmd.name, cmd.nLocals);
      FunctionEffect(cmd.name, cmd.nLocals, sym, s);
    } else if cmd.Call? {
      assert Generate(ctx, cmd).value.1 == WriteCall(ctx, cmd.name, cmd.nArgs).1;
      CallEffect(ctx, cmd.name, cmd.nArgs, Resolve(cmd.name, sym).value, sym, s);
    } else {
      assert Generate(ctx, cmd).value.1 == WriteReturn();
      ReturnEffect(sym, s);
    }
  }
}
