/** The code generator (`Codewriter`): one function per `write_*` /
    `*_operation` method. Each takes the translation context (the
    comparison-label counter `index`, the return-label counter
    `return_address` and the current `file_name`) and yields the assembly
    lines the method appends to the output queue, with the updated context.
    The queue itself is the `seq<string>` the driver appends them to. */
module CodeWriter {
  import opened Wrappers
  import opened Text

  /** The translation context a `Codewriter` carries between calls. */
  datatype Ctx = Ctx(index: nat, returnAddress: nat, fileName: string)

  /** The context of a fresh `Codewriter()`. */
  const Fresh: Ctx := Ctx(0, 0, "")

  /** The errors the code writer raises. */
  datatype WriteError =
    | InvalidArithmetic   // `write_arithmetic` on an unknown operation
    | InvalidSegment      // push or pop on a segment it does not accept

  /** A VM command with its operands, numbers already converted. */
  datatype Command =
    | Arithmetic(op: string)
    | Push(segment: string, offset: nat)
    | Pop(segment: string, offset: nat)
    | Label(name: string)
    | Goto(name: string)
    | IfGoto(name: string)
    | Function(name: string, nLocals: nat)
    | Call(name: string, nArgs: nat)
    | Return

  /** `set_file_name`: only the module name changes; the counters carry on
      into the next module. */
  function SetFileName(ctx: Ctx, fileName: string): (c: Ctx)
    ensures c.index == ctx.index && c.returnAddress == ctx.returnAddress
    ensures c.fileName == fileName
  {
    ctx.(fileName := fileName)
  }

  // ---------------------------------------------------------------------------
  // Symbols the generator makes up
  // ---------------------------------------------------------------------------

  /** Target of the true branch of the `i`-th comparison. */
  function TrueLabel(i: nat): string {
    "labelTrue" + NatToString(i)
  }

  /** Target of the false branch of the `i`-th comparison. */
  function FalseLabel(i: nat): string {
    "labelFalse" + NatToString(i)
  }

  /** Return address label of the `k`-th call. */
  function ReturnLabel(k: nat): string {
    "RA$" + NatToString(k)
  }

  /** `file_name.split(".")[0] + "." + str(offset)`: the assembler variable
      behind `static offset` in module `fileName`. */
  function StaticSymbol(fileName: string, offset: nat): string {
    Before(fileName, '.') + "." + NatToString(offset)
  }

  /** The values of `_segment_asm`: a base-pointer symbol, or the first
      register of a fixed region. */
  datatype SegmentBase = BasePointer(symbol: string) | FixedRegion(first: nat)

  /** `_segment_asm`. */
  const SegmentAsm: map<string, SegmentBase> := map[
    "local" := BasePointer("LCL"),
    "argument" := BasePointer("ARG"),
    "this" := BasePointer("THIS"),
    "that" := BasePointer("THAT"),
    "pointer" := FixedRegion(3),
    "temp" := FixedRegion(5)
  ]

  /** The segments addressed through a base pointer. */
  const PointerSegments: seq<string> := ["local", "argument", "this", "that"]

  /** The segments mapped onto fixed registers. */
  const FixedSegments: seq<string> := ["pointer", "temp"]

  /** The segments `push_operation` accepts. */
  predicate IsPushSegment(segment: string) {
    segment == "constant" || segment == "static"
    || segment in PointerSegments || segment in FixedSegments
  }

  /** The segments `pop_operation` accepts: all but `constant`. */
  predicate IsPopSegment(segment: string) {
    segment == "static" || segment in PointerSegments || segment in FixedSegments
  }

  /** The register name `R<n>` of fixed-region cell `offset`. */
  function FixedRegister(segment: string, offset: nat): string
    requires segment in FixedSegments
  {
    "R" + NatToString(offset + SegmentAsm[segment].first)
  }

  // ---------------------------------------------------------------------------
  // Templates
  // ---------------------------------------------------------------------------

  /** `_write_push_template`: `*SP = D; SP++`. */
  function PushTemplate(): seq<string> {
    ["@SP", "A=M", "M=D", "@SP", "M=M+1\n"]
  }

  /** `_return_template`: `R14--; segment = *R14`. */
  function ReturnTemplate(segment: string): seq<string> {
    ["@R14", "M=M-1", "A=M", "D=M", "@" + segment, "M=D\n"]
  }

  /** `_eq_gt_lt_template`: compares the two topmost values, branching to the
      fresh labels of comparison number `index`, and bumps `index`. */
  function CompareTemplate(ctx: Ctx, cmd: string, jump: string): (r: (Ctx, seq<string>))
    ensures r.0 == ctx.(index := ctx.index + 1)
  {
    var i := ctx.index;
    // The last five lines, written out in the program, are those of the
    // push template.
    (ctx.(index := i + 1),
     ["//" + cmd,
      "@SP", "AM=M-1", "D=M",
      "@SP", "AM=M-1", "D=M-D",
      "@" + TrueLabel(i), "D;" + jump,
      "D=0", "@" + FalseLabel(i), "0;JMP"]
     + ["(" + TrueLabel(i) + ")"] + ["@SP", "D=-1"]
     + ["(" + FalseLabel(i) + ")"] + PushTemplate())
  }

  /** `_neg_not_template`: replaces the topmost value in place. */
  function NegNotTemplate(cmd: string, operation: string): seq<string> {
    ["//" + cmd, "@SP", "AM=M-1", "M=" + operation + "M", "@SP", "M=M+1\n"]
  }

  /** `_add_sub_or_and_template`: combines the two topmost values into one. */
  function AddSubOrAndTemplate(cmd: string, operation: string): seq<string> {
    ["//" + cmd, "@SP", "AM=M-1", "D=M", "@SP", "AM=M-1", "M=M" + operation + "D", "@SP", "M=M+1\n"]
  }

  // ---------------------------------------------------------------------------
  // Branching
  // ---------------------------------------------------------------------------

  /** `write_label_name`. */
  function WriteLabel(name: string): seq<string> {
    ["// label " + name, "(" + name + ")\n"]
  }

  /** `write_goto`. */
  function WriteGoto(name: string): seq<string> {
    ["// goto " + name, "@" + name, "0;JMP\n"]
  }

  /** `write_if_goto`: pops the top value and jumps when it is not zero. */
  function WriteIfGoto(name: string): seq<string> {
    ["// if-goto " + name, "@SP", "AM=M-1", "D=M", "@" + name, "D;JNE\n"]
  }

  // ---------------------------------------------------------------------------
  // Function calls
  // ---------------------------------------------------------------------------

  /** Saves one base pointer of the caller on the stack (a block of
      `write_call`). */
  function SavePointer(symbol: string): seq<string> {
    ["//  push " + symbol, "@" + symbol, "D=M"] + PushTemplate()
  }

  /** `ARG = SP - (5 + nArgs)` (a block of `write_call`). */
  function RepositionArg(nArgs: nat): seq<string> {
    ["//  ARG = SP-5-nArgs", "@" + NatToString(5 + nArgs), "D=A", "@SP", "D=M-D", "@ARG", "M=D\n"]
  }

  /** `LCL = SP` (a block of `write_call`). */
  function RepositionLcl(): seq<string> {
    ["//  LCL=SP", "@SP", "D=M", "@LCL", "M=D\n"]
  }

  /** The frame `write_call` pushes: the return address, then LCL, ARG, THIS
      and THAT. */
  function SaveFrame(k: nat): seq<string> {
    ["//  push returnAddress", "@" + ReturnLabel(k), "D=A"] + PushTemplate()
    + SavePointer("LCL") + SavePointer("ARG") + SavePointer("THIS") + SavePointer("THAT")
  }

  /** `write_call`: saves the caller's frame, repositions ARG and LCL, jumps
      to the callee and declares the return label, using and then bumping
      `return_address`. */
  function WriteCall(ctx: Ctx, functionName: string, nArgs: nat): (r: (Ctx, seq<string>))
    ensures r.0 == ctx.(returnAddress := ctx.returnAddress + 1)
    ensures var lines := r.1;
            && |lines| == 58
            && lines[2] == "@" + ReturnLabel(ctx.returnAddress)
            && lines[42] == "@" + NatToString(5 + nArgs)
            && lines[54] == "@" + functionName
            && lines[57] == "(" + ReturnLabel(ctx.returnAddress) + ")\n"
  {
    var k := ctx.returnAddress;
    var lines := ["//  call " + functionName + NatToString(nArgs) + "\n"]
                 + SaveFrame(k) + RepositionArg(nArgs) + RepositionLcl()
                 + WriteGoto(functionName) + WriteLabel(ReturnLabel(k));
    assert |SaveFrame(k)| == 40;
    (ctx.(returnAddress := k + 1), lines)
  }

  /** `write_init`: `SP = 256`, then an ordinary call of `Sys.init` with no
      arguments. */
  function WriteInit(ctx: Ctx): (r: (Ctx, seq<string>))
    ensures r.0 == ctx.(returnAddress := ctx.returnAddress + 1)
    ensures |r.1| == 63
    ensures r.1[..5] == ["// VM initialization (bootstrap code)", "@256", "D=A", "@SP", "M=D\n"]
    ensures r.1[5..] == WriteCall(ctx, "Sys.init", 0).1
  {
    var (c, call) := WriteCall(ctx, "Sys.init", 0);
    (c, ["// VM initialization (bootstrap code)", "@256", "D=A", "@SP", "M=D\n"] + call)
  }

  /** One local variable initialised to zero (the loop body of
      `write_function`). */
  function ZeroPush(): seq<string> {
    ["@0", "D=A"] + PushTemplate()
  }

  /** `nLocals` copies of `ZeroPush`. */
  function ZeroLocals(nLocals: nat): (r: seq<string>)
    ensures |r| == 7 * nLocals
  {
    if nLocals == 0 then [] else ZeroPush() + ZeroLocals(nLocals - 1)
  }

  /** Block `j` of `ZeroLocals(nLocals)` is one zero push. */
  lemma {:induction false} ZeroLocalsBlocks(nLocals: nat)
    ensures forall j :: 0 <= j < nLocals ==> ZeroLocals(nLocals)[7 * j..7 * j + 7] == ZeroPush()
  {
    if nLocals > 0 {
      var r, rest := ZeroLocals(nLocals), ZeroLocals(nLocals - 1);
      ZeroLocalsBlocks(nLocals - 1);
      forall j | 0 <= j < nLocals ensures r[7 * j..7 * j + 7] == ZeroPush() {
        if j == 0 {
          assert r[..7] == ZeroPush();
        } else {
          assert r[7 * j..7 * j + 7] == rest[7 * (j - 1)..7 * (j - 1) + 7];
        }
      }
    }
  }

  /** `write_function`: the entry label, then `nLocals` zero pushes. */
  function WriteFunction(functionName: string, nLocals: nat): (r: seq<string>)
    ensures |r| == 3 + 7 * nLocals
    ensures r[..3] == ["//  function " + functionName + " " + NatToString(nLocals)] + WriteLabel(functionName)
    ensures forall j :: 0 <= j < nLocals ==> r[3 + 7 * j..3 + 7 * j + 7] == ZeroPush()
  {
    var r := ["//  function " + functionName + " " + NatToString(nLocals)]
             + WriteLabel(functionName) + ZeroLocals(nLocals);
    ZeroLocalsBlocks(nLocals);
    assert forall j :: 0 <= j < nLocals ==>
             r[3 + 7 * j..3 + 7 * j + 7] == ZeroLocals(nLocals)[7 * j..7 * j + 7];
    r
  }

  /** The first part of `write_return`: `frame = LCL` (kept in R14),
      `retAddr = *(frame-5)` (kept in R15), `*ARG = pop()`, `SP = ARG+1`. */
  function ReturnPrologue(): seq<string> {
    ["// return", "// frame=LCL\n", "@LCL", "D=M", "@R14", "M=D\n",
     "// retAddr = *(frame-5)", "@5", "A=D-A", "D=M", "@R15", "M=D\n",
     "// *ARG=pop()", "@SP", "AM=M-1", "D=M\n", "@ARG", "A=M", "M=D", "D=A",
     "// SP=ARG+1", "@SP", "M=D+1\n"]
  }

  /** The second part of `write_return`: THAT, THIS, ARG and LCL restored
      from `frame-1` ... `frame-4`, then the jump to `retAddr`. */
  function ReturnEpilogue(): seq<string> {
    ["// THAT=*(frame-1)"] + ReturnTemplate("THAT")
    + ["// THIS=*(frame-2)"] + ReturnTemplate("THIS")
    + ["// ARG=*(frame-3)"] + ReturnTemplate("ARG")
    + ["// LCL=*(frame-4)"] + ReturnTemplate("LCL")
    + ["// goto retAddr", "@R15", "A=M", "0;JMP\n"]
  }

  /** `write_return`. */
  function WriteReturn(): seq<string> {
    ReturnPrologue() + ReturnEpilogue()
  }

  // ---------------------------------------------------------------------------
  // Arithmetic, push and pop
  // ---------------------------------------------------------------------------

  /** The operations that compare and so draw on `index`. */
  predicate IsComparison(op: string) {
    op == "eq" || op == "gt" || op == "lt"
  }

  /** `write_arithmetic`: the nine operations and nothing else. As in the
      program, `add` is emitted with the operator `-`, exactly like `sub`. */
  function WriteArithmetic(ctx: Ctx, op: string): (r: Result<(Ctx, seq<string>), WriteError>)
    ensures r.Failure? <==> op !in ["add", "sub", "neg", "eq", "gt", "lt", "and", "or", "not"]
    ensures r.Failure? ==> r.error == InvalidArithmetic
    ensures r.Success? ==>
              r.value.0 == ctx.(index := ctx.index + (if IsComparison(op) then 1 else 0))
  {
    if op == "add" then Success((ctx, AddSubOrAndTemplate("add", "-")))
    else if op == "neg" then Success((ctx, NegNotTemplate("neg", "-")))
    else if op == "sub" then Success((ctx, AddSubOrAndTemplate("sub", "-")))
    else if op == "eq" then Success(CompareTemplate(ctx, "eq", "JEQ"))
    else if op == "gt" then Success(CompareTemplate(ctx, "gt", "JGT"))
    else if op == "lt" then Success(CompareTemplate(ctx, "lt", "JLT"))
    else if op == "and" then Success((ctx, AddSubOrAndTemplate("and", "&")))
    else if op == "or" then Success((ctx, AddSubOrAndTemplate("or", "|")))
    else if op == "not" then Success((ctx, NegNotTemplate("not", "!")))
    else Failure(InvalidArithmetic)
  }

  /** `push_operation`: loads the value of `segment offset` into D and pushes
      it. Every segment outside the eight the program knows is an error. */
  function PushOperation(ctx: Ctx, segment: string, offset: nat): (r: Result<seq<string>, WriteError>)
    ensures r.Failure? <==> !IsPushSegment(segment)
    ensures r.Failure? ==> r.error == InvalidSegment
    ensures r.Success? ==>
              && |r.value| >= 8
              && r.value[0] == "// push " + segment + " " + NatToString(offset)
              && r.value[|r.value| - 5..] == PushTemplate()
  {
    var comment := "// push " + segment + " " + NatToString(offset);
    if segment == "constant" then
      Success([comment, "@" + NatToString(offset), "D=A"] + PushTemplate())
    else if segment == "static" then
      Success([comment, "@" + StaticSymbol(ctx.fileName, offset), "D=M"] + PushTemplate())
    else if segment in PointerSegments then
      Success([comment, "@" + SegmentAsm[segment].symbol, "D=M", "@" + NatToString(offset), "A=D+A", "D=M"]
              + PushTemplate())
    else if segment in FixedSegments then
      Success([comment, "@" + FixedRegister(segment, offset), "D=M"] + PushTemplate())
    else Failure(InvalidSegment)
  }

  /** `pop_operation`: pops the top value into `segment offset`. `constant`
      is not a place to store into and is rejected like an unknown segment. */
  function PopOperation(ctx: Ctx, segment: string, offset: nat): (r: Result<seq<string>, WriteError>)
    ensures r.Failure? <==> !IsPopSegment(segment)
    ensures r.Failure? ==> r.error == InvalidSegment
    ensures r.Success? ==> |r.value| >= 6 && r.value[0] == "// pop " + segment + " " + NatToString(offset)
  {
    var comment := "// pop " + segment + " " + NatToString(offset);
    if segment == "static" then
      Success([comment, "@SP", "AM=M-1", "D=M", "@" + StaticSymbol(ctx.fileName, offset), "M=D\n"])
    else if segment in PointerSegments then
      Success([comment, "@" + SegmentAsm[segment].symbol, "D=M", "@" + NatToString(offset), "D=D+A",
               "@R13", "M=D", "@SP", "AM=M-1", "D=M", "@R13", "A=M", "M=D\n"])
    else if segment in FixedSegments then
      Success([comment, "@SP", "AM=M-1", "D=M", "@" + FixedRegister(segment, offset), "M=D\n"])
    else Failure(InvalidSegment)
  }

  // ---------------------------------------------------------------------------
  // One command, and a run of commands
  // ---------------------------------------------------------------------------

  /** The commands the generator accepts: a known arithmetic operation, a
      push or pop on a segment that takes it, and every other command. */
  predicate Translatable(cmd: Command) {
    match cmd
    case Arithmetic(op) => op in ["add", "sub", "neg", "eq", "gt", "lt", "and", "or", "not"]
    case Push(segment, _) => IsPushSegment(segment)
    case Pop(segment, _) => IsPopSegment(segment)
    case _ => true
  }

  /** The lines one command appends, and the context after it. */
  function Generate(ctx: Ctx, cmd: Command): (r: Result<(Ctx, seq<string>), WriteError>)
    ensures r.Success? <==> Translatable(cmd)
    ensures r.Failure? ==> r.error == (if cmd.Arithmetic? then InvalidArithmetic else InvalidSegment)
    ensures r.Success? ==>
              r.value.0 == ctx.(index := ctx.index + (if cmd.Arithmetic? && IsComparison(cmd.op) then 1 else 0),
                                returnAddress := ctx.returnAddress + (if cmd.Call? then 1 else 0))
  {
    match cmd
    case Arithmetic(op) => WriteArithmetic(ctx, op)
    case Push(segment, offset) =>
      var lines :- PushOperation(ctx, segment, offset);
      Success((ctx, lines))
    case Pop(segment, offset) =>
      var lines :- PopOperation(ctx, segment, offset);
      Success((ctx, lines))
    case Label(name) => Success((ctx, WriteLabel(name)))
    case Goto(name) => Success((ctx, WriteGoto(name)))
    case IfGoto(name) => Success((ctx, WriteIfGoto(name)))
    case Function(name, nLocals) => Success((ctx, WriteFunction(name, nLocals)))
    case Call(name, nArgs) => Success(WriteCall(ctx, name, nArgs))
    case Return => Success((ctx, WriteReturn()))
  }

  /** Appends the code of `cmd` to the output queue `out`. */
  function Emit(ctx: Ctx, out: seq<string>, cmd: Command): (r: Result<(Ctx, seq<string>), WriteError>)
    ensures r.Success? <==> Generate(ctx, cmd).Success?
    ensures r.Success? ==>
              && out <= r.value.1
              && r.value.1[|out|..] == Generate(ctx, cmd).value.1
              && r.value.0 == Generate(ctx, cmd).value.0
  {
    var (c, lines) :- Generate(ctx, cmd);
    Success((c, out + lines))
  }

  /** Number of comparisons among `cmds`. */
  function Comparisons(cmds: seq<Command>): nat {
    if cmds == [] then 0
    else (if cmds[0].Arithmetic? && IsComparison(cmds[0].op) then 1 else 0) + Comparisons(cmds[1..])
  }

  /** Number of calls among `cmds`. */
  function Calls(cmds: seq<Command>): nat {
    if cmds == [] then 0
    else (if cmds[0].Call? then 1 else 0) + Calls(cmds[1..])
  }

  /** Translates `cmds` in order onto the output queue `out`, threading the
      context, and stops at the first error. */
  function Run(ctx: Ctx, out: seq<string>, cmds: seq<Command>): (r: Result<(Ctx, seq<string>), WriteError>)
    ensures r.Success? ==> out <= r.value.1
    ensures r.Success? ==>
              && r.value.0.index == ctx.index + Comparisons(cmds)
              && r.value.0.returnAddress == ctx.returnAddress + Calls(cmds)
              && r.value.0.fileName == ctx.fileName
    decreases |cmds|
  {
    if cmds == [] then Success((ctx, out))
    else
      var (c, out') :- Emit(ctx, out, cmds[0]);
      Run(c, out', cmds[1..])
  }

  /** A run completes exactly when every command in it is translatable;
      otherwise it stops with the error of the first one that is not. */
  lemma {:induction false} RunSucceeds(ctx: Ctx, out: seq<string>, cmds: seq<Command>)
    ensures Run(ctx, out, cmds).Success? <==> forall i :: 0 <= i < |cmds| ==> Translatable(cmds[i])
    decreases |cmds|
  {
    if cmds != [] {
      var g := Generate(ctx, cmds[0]);
      if g.Success? {
        RunSucceeds(g.value.0, out + g.value.1, cmds[1..]);
        assert forall i :: 1 <= i < |cmds| ==> cmds[i] == cmds[1..][i - 1];
      }
    }
  }

  /** Translating `a + b` is translating `a` and then carrying on with `b`
      from the context and the output queue `a` left behind: one output
      queue and one context serve a whole sequence of commands. */
  lemma {:induction false} RunAppend(ctx: Ctx, out: seq<string>, a: seq<Command>, b: seq<Command>)
    requires Run(ctx, out, a).Success?
    ensures Run(ctx, out, a + b) == Run(Run(ctx, out, a).value.0, Run(ctx, out, a).value.1, b)
    decreases |a|
  {
    if a == [] {
      assert a + b == b;
    } else {
      assert (a + b)[0] == a[0];
      assert (a + b)[1..] == a[1..] + b;
      var e := Emit(ctx, out, a[0]);
      RunAppend(e.value.0, e.value.1, a[1..], b);
    }
  }
}
