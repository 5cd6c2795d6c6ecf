/** The labels the generated assembly declares. Comparisons and calls make up
    their own labels from the two counters of the context; this module shows
    that every such label is declared exactly once in the code of a run of
    commands, provided the program's own labels and function names stay
    clear of the generated name patterns. */
module Labels {
  import opened Wrappers
  import opened Text
  import opened Hack
  import opened CodeWriter
  import opened Seqs

  /** The names the lines declare, in order. */
  function Decls(lines: seq<string>): seq<string> {
    FlatMap(LineDecl, lines)
  }

  /** The name one line declares, if any. */
  function LineDecl(line: string): seq<string> {
    match DeclaredName(line) case Some(n) => [n] case None => []
  }

  lemma DeclsAppend(a: seq<string>, b: seq<string>)
    ensures Decls(a + b) == Decls(a) + Decls(b)
  {
    FlatMapAppend(LineDecl, a, b);
  }

  /** Lines that do not start with `(` declare nothing. */
  lemma {:induction false} NoDecls(lines: seq<string>)
    requires forall i :: 0 <= i < |lines| ==> lines[i] != [] && lines[i][0] != '('
    ensures Decls(lines) == []
    decreases |lines|
  {
    if lines != [] {
      NoDecls(lines[1..]);
    }
  }

  /** `(name)`, with or without the newline, declares `name`. */
  lemma DeclaredNameOf(line: string, name: string)
    requires line == "(" + name + ")" || line == "(" + name + ")\n"
    ensures DeclaredName(line) == Some(name)
  {
    var t := "(" + name + ")";
    assert "(" + name + ")\n" == t + "\n";
    assert Code(t + "\n") == t;
    assert t[1..|t| - 1] == name;
  }

  lemma DeclsOne(line: string, name: string)
    requires DeclaredName(line) == Some(name)
    ensures Decls([line]) == [name]
  {
    assert [line][1..] == [];
    assert FlatMap(LineDecl, [line]) == LineDecl(line) + FlatMap(LineDecl, []);
  }

  // ---------------------------------------------------------------------------
  // What each template declares
  // ---------------------------------------------------------------------------

  lemma PushTemplateDecls()
    ensures Decls(PushTemplate()) == []
  {
    NoDecls(PushTemplate());
  }

  lemma WriteLabelDecls(name: string)
    ensures Decls(WriteLabel(name)) == [name]
  {
    DeclaredNameOf("(" + name + ")\n", name);
    DeclsOne("(" + name + ")\n", name);
    DeclsAppend(["// label " + name], ["(" + name + ")\n"]);
    NoDecls(["// label " + name]);
  }

  lemma DeclsFive(a: seq<string>, b: seq<string>, c: seq<string>, d: seq<string>, e: seq<string>)
    ensures Decls(a + b + c + d + e) == Decls(a) + Decls(b) + Decls(c) + Decls(d) + Decls(e)
  {
    DeclsAppend(a, b);
    DeclsAppend(a + b, c);
    DeclsAppend(a + b + c, d);
    DeclsAppend(a + b + c + d, e);
  }

  /** Lines that declare exactly two labels, in between label-free runs. */
  lemma DeclsTwo(a: seq<string>, t: string, c: seq<string>, f: string, e: seq<string>)
    requires Decls(a) == [] && Decls(c) == [] && Decls(e) == []
    ensures Decls(a + ["(" + t + ")"] + c + ["(" + f + ")"] + e) == [t, f]
  {
    var x, y := "(" + t + ")", "(" + f + ")";
    DeclaredNameOf(x, t);
    DeclaredNameOf(y, f);
    DeclsOne(x, t);
    DeclsOne(y, f);
    DeclsFive(a, [x], c, [y], e);
  }

  lemma CompareTemplateDecls(ctx: Ctx, cmd: string, jump: string)
    ensures Decls(CompareTemplate(ctx, cmd, jump).1) == [TrueLabel(ctx.index), FalseLabel(ctx.index)]
  {
    var t, f := TrueLabel(ctx.index), FalseLabel(ctx.index);
    var a := ["//" + cmd, "@SP", "AM=M-1", "D=M", "@SP", "AM=M-1", "D=M-D",
              "@" + t, "D;" + jump, "D=0", "@" + f, "0;JMP"];
    var c := ["@SP", "D=-1"];
    assert Decls(a) == [] by {
      NoDecls(a);
    }
    assert Decls(c) == [] by {
      NoDecls(c);
    }
    PushTemplateDecls();
    DeclsTwo(a, t, c, f, PushTemplate());
  }

  lemma {:induction false} ZeroLocalsDecls(nLocals: nat)
    ensures Decls(ZeroLocals(nLocals)) == []
  {
    if nLocals > 0 {
      var rest := ZeroLocals(nLocals - 1);
      assert ZeroLocals(nLocals) == ZeroPush() + rest;
      PushTemplateDecls();
      assert Decls(ZeroPush()) == [] by {
        DeclsAppend(["@0", "D=A"], PushTemplate());
      }
      ZeroLocalsDecls(nLocals - 1);
      DeclsAppend(ZeroPush(), rest);
    }
  }

  lemma WriteFunctionDecls(name: string, nLocals: nat)
    ensures Decls(WriteFunction(name, nLocals)) == [name]
  {
    var head := ["//  function " + name + " " + NatToString(nLocals)];
    assert WriteFunction(name, nLocals) == head + WriteLabel(name) + ZeroLocals(nLocals);
    NoDecls(head);
    WriteLabelDecls(name);
    ZeroLocalsDecls(nLocals);
    DeclsAppend(head, WriteLabel(name));
    DeclsAppend(head + WriteLabel(name), ZeroLocals(nLocals));
  }

  lemma SavePointerDecls(symbol: string)
    ensures Decls(SavePointer(symbol)) == []
  {
    PushTemplateDecls();
    NoDecls(["//  push " + symbol, "@" + symbol, "D=M"]);
    DeclsAppend(["//  push " + symbol, "@" + symbol, "D=M"], PushTemplate());
  }

  lemma SaveFrameDecls(k: nat)
    ensures Decls(SaveFrame(k)) == []
  {
    var head := ["//  push returnAddress", "@" + ReturnLabel(k), "D=A"] + PushTemplate();
    assert Decls(head) == [] by {
      PushTemplateDecls();
      NoDecls(["//  push returnAddress", "@" + ReturnLabel(k), "D=A"]);
      DeclsAppend(["//  push returnAddress", "@" + ReturnLabel(k), "D=A"], PushTemplate());
    }
    SavePointerDecls("LCL");
    SavePointerDecls("ARG");
    SavePointerDecls("THIS");
    SavePointerDecls("THAT");
    DeclsFive(head, SavePointer("LCL"), SavePointer("ARG"), SavePointer("THIS"), SavePointer("THAT"));
  }

  lemma CallTailDecls(name: string, nArgs: nat)
    ensures Decls(RepositionArg(nArgs)) == [] && Decls(RepositionLcl()) == [] && Decls(WriteGoto(name)) == []
  {
    NoDecls(RepositionArg(nArgs));
    NoDecls(RepositionLcl());
    NoDecls(WriteGoto(name));
  }

  /** Everything of a call before its return label declares nothing. */
  lemma CallBodyDecls(k: nat, name: string, nArgs: nat)
    ensures Decls(["//  call " + name + NatToString(nArgs) + "\n"]
                  + SaveFrame(k) + RepositionArg(nArgs) + RepositionLcl() + WriteGoto(name)) == []
  {
    var head := ["//  call " + name + NatToString(nArgs) + "\n"];
    NoDecls(head);
    SaveFrameDecls(k);
    CallTailDecls(name, nArgs);
    DeclsFive(head, SaveFrame(k), RepositionArg(nArgs), RepositionLcl(), WriteGoto(name));
  }

  lemma WriteCallDecls(ctx: Ctx, name: string, nArgs: nat)
    ensures Decls(WriteCall(ctx, name, nArgs).1) == [ReturnLabel(ctx.returnAddress)]
  {
    var k := ctx.returnAddress;
    var body := ["//  call " + name + NatToString(nArgs) + "\n"]
                + SaveFrame(k) + RepositionArg(nArgs) + RepositionLcl() + WriteGoto(name);
    assert WriteCall(ctx, name, nArgs).1 == body + WriteLabel(ReturnLabel(k));
    CallBodyDecls(k, name, nArgs);
    WriteLabelDecls(ReturnLabel(k));
    DeclsAppend(body, WriteLabel(ReturnLabel(k)));
  }

  lemma WriteInitDecls(ctx: Ctx)
    ensures Decls(WriteInit(ctx).1) == [ReturnLabel(ctx.returnAddress)]
  {
    var boot := WriteInit(ctx).1[..5];
    assert WriteInit(ctx).1 == boot + WriteCall(ctx, "Sys.init", 0).1;
    NoDecls(boot);
    WriteCallDecls(ctx, "Sys.init", 0);
    DeclsAppend(boot, WriteCall(ctx, "Sys.init", 0).1);
  }

  lemma ReturnTemplateDecls(comment: string, segment: string)
    requires comment != [] && comment[0] == '/'
    ensures Decls([comment] + ReturnTemplate(segment)) == []
  {
    NoDecls([comment] + ReturnTemplate(segment));
  }

  lemma ReturnEpilogueDecls()
    ensures Decls(ReturnEpilogue()) == []
  {
    var a := ["// THAT=*(frame-1)"] + ReturnTemplate("THAT");
    var b := ["// THIS=*(frame-2)"] + ReturnTemplate("THIS");
    var c := ["// ARG=*(frame-3)"] + ReturnTemplate("ARG");
    var d := ["// LCL=*(frame-4)"] + ReturnTemplate("LCL");
    var j := ["// goto retAddr", "@R15", "A=M", "0;JMP\n"];
    assert ReturnEpilogue() == (((a + b) + c) + d) + j;
    ReturnTemplateDecls("// THAT=*(frame-1)", "THAT");
    ReturnTemplateDecls("// THIS=*(frame-2)", "THIS");
    ReturnTemplateDecls("// ARG=*(frame-3)", "ARG");
    ReturnTemplateDecls("// LCL=*(frame-4)", "LCL");
    NoDecls(j);
    DeclsAppend(a, b);
    DeclsAppend(a + b, c);
    DeclsAppend((a + b) + c, d);
    DeclsAppend(((a + b) + c) + d, j);
  }

  lemma WriteReturnDecls()
    ensures Decls(WriteReturn()) == []
  {
    NoDecls(ReturnPrologue());
    ReturnEpilogueDecls();
    DeclsAppend(ReturnPrologue(), ReturnEpilogue());
  }

  lemma PushOperationDecls(ctx: Ctx, segment: string, offset: nat)
    requires PushOperation(ctx, segment, offset).Success?
    ensures Decls(PushOperation(ctx, segment, offset).value) == []
  {
    NoDecls(PushOperation(ctx, segment, offset).value);
  }

  lemma PopOperationDecls(ctx: Ctx, segment: string, offset: nat)
    requires PopOperation(ctx, segment, offset).Success?
    ensures Decls(PopOperation(ctx, segment, offset).value) == []
  {
    NoDecls(PopOperation(ctx, segment, offset).value);
  }

  /** The names one command declares: the two labels of a comparison, the
      return label of a call, and the program's own labels and functions. */
  function CommandDecls(ctx: Ctx, cmd: Command): seq<string> {
    match cmd
    case Arithmetic(op) => if IsComparison(op) then [TrueLabel(ctx.index), FalseLabel(ctx.index)] else []
    case Label(name) => [name]
    case Function(name, _) => [name]
    case Call(_, _) => [ReturnLabel(ctx.returnAddress)]
    case _ => []
  }

  lemma WriteArithmeticDecls(ctx: Ctx, op: string)
    requires WriteArithmetic(ctx, op).Success?
    ensures Decls(WriteArithmetic(ctx, op).value.1) == CommandDecls(ctx, Arithmetic(op))
  {
    if IsComparison(op) {
      CompareTemplateDecls(ctx, op, if op == "eq" then "JEQ" else if op == "gt" then "JGT" else "JLT");
    } else if op == "neg" || op == "not" {
      NoDecls(NegNotTemplate(op, if op == "neg" then "-" else "!"));
    } else {
      NoDecls(AddSubOrAndTemplate(op, if op == "add" || op == "sub" then "-" else if op == "and" then "&" else "|"));
    }
  }

  /** The code of a command declares exactly `CommandDecls`. */
  lemma GenerateDecls(ctx: Ctx, cmd: Command)
    requires Generate(ctx, cmd).Success?
    ensures Decls(Generate(ctx, cmd).value.1) == CommandDecls(ctx, cmd)
  {
    var code := Generate(ctx, cmd).value.1;
    match cmd
    case Arithmetic(op) =>
      assert code == WriteArithmetic(ctx, op).value.1;
      WriteArithmeticDecls(ctx, op);
    case Push(segment, offset) =>
      assert code == PushOperation(ctx, segment, offset).value;
      PushOperationDecls(ctx, segment, offset);
    case Pop(segment, offset) =>
      assert code == PopOperation(ctx, segment, offset).value;
      PopOperationDecls(ctx, segment, offset);
    case Label(name) =>
      assert code == WriteLabel(name);
      WriteLabelDecls(name);
    case Goto(name) =>
      assert code == WriteGoto(name);
      NoDecls(WriteGoto(name));
    case IfGoto(name) =>
      assert code == WriteIfGoto(name);
      NoDecls(WriteIfGoto(name));
    case Function(name, nLocals) =>
      assert code == WriteFunction(name, nLocals);
      WriteFunctionDecls(name, nLocals);
    case Call(name, nArgs) =>
      assert code == WriteCall(ctx, name, nArgs).1;
      WriteCallDecls(ctx, name, nArgs);
    case Return =>
      assert code == WriteReturn();
      WriteReturnDecls();
  }

  // ---------------------------------------------------------------------------
  // Generated names never collide
  // ---------------------------------------------------------------------------

  /** Names of the shapes the generator makes up. */
  predicate Reserved(name: string) {
    "labelTrue" <= name || "labelFalse" <= name || "RA$" <= name
  }

  lemma GeneratedAreReserved(i: nat)
    ensures Reserved(TrueLabel(i)) && Reserved(FalseLabel(i)) && Reserved(ReturnLabel(i))
  {
  }

  /** Generated labels of different kinds or numbers are different strings. */
  lemma GeneratedDistinct(i: nat, j: nat)
    ensures TrueLabel(i) != FalseLabel(j)
    ensures TrueLabel(i) != ReturnLabel(j) && FalseLabel(i) != ReturnLabel(j)
    ensures TrueLabel(i) == TrueLabel(j) ==> i == j
    ensures FalseLabel(i) == FalseLabel(j) ==> i == j
    ensures ReturnLabel(i) == ReturnLabel(j) ==> i == j
  {
    assert TrueLabel(i)[5] == 'T' && FalseLabel(j)[5] == 'F';
    assert TrueLabel(i)[0] == 'l' && FalseLabel(i)[0] == 'l' && ReturnLabel(j)[0] == 'R';
    if TrueLabel(i) == TrueLabel(j) {
      assert NatToString(i) == TrueLabel(i)[9..];
      NatToStringInjective(i, j);
    }
    if FalseLabel(i) == FalseLabel(j) {
      assert NatToString(i) == FalseLabel(i)[10..];
      NatToStringInjective(i, j);
    }
    if ReturnLabel(i) == ReturnLabel(j) {
      assert NatToString(i) == ReturnLabel(i)[3..];
      NatToStringInjective(i, j);
    }
  }

  /** The program's own labels and function names avoid the generated name
      shapes. */
  predicate UserNamesFree(cmds: seq<Command>) {
    forall i :: 0 <= i < |cmds| ==>
      (cmds[i].Label? ==> !Reserved(cmds[i].name)) && (cmds[i].Function? ==> !Reserved(cmds[i].name))
  }

  /** Occurrences of `x` in `xs`. */
  function Count(xs: seq<string>, x: string): nat {
    if xs == [] then 0 else (if xs[0] == x then 1 else 0) + Count(xs[1..], x)
  }

  lemma {:induction false} CountAppend(a: seq<string>, b: seq<string>, x: string)
    ensures Count(a + b, x) == Count(a, x) + Count(b, x)
    decreases |a|
  {
    if a == [] {
      assert a + b == b;
    } else {
      assert (a + b)[1..] == a[1..] + b;
      CountAppend(a[1..], b, x);
    }
  }

  /** How often one command declares each generated label: once for the
      labels numbered by the counter it draws on, never otherwise. */
  lemma CommandDeclCounts(ctx: Ctx, cmd: Command, j: nat)
    requires (cmd.Label? || cmd.Function?) ==> !Reserved(cmd.name)
    ensures var cmp := if cmd.Arithmetic? && IsComparison(cmd.op) then 1 else 0;
            var call := if cmd.Call? then 1 else 0;
            && Count(CommandDecls(ctx, cmd), TrueLabel(j)) == (if j == ctx.index then cmp else 0)
            && Count(CommandDecls(ctx, cmd), FalseLabel(j)) == (if j == ctx.index then cmp else 0)
            && Count(CommandDecls(ctx, cmd), ReturnLabel(j)) == (if j == ctx.returnAddress then call else 0)
  {
    var ds := CommandDecls(ctx, cmd);
    if cmd.Arithmetic? && IsComparison(cmd.op) {
      GeneratedDistinct(ctx.index, j);
      GeneratedDistinct(j, ctx.index);
      CountTwo(TrueLabel(ctx.index), FalseLabel(ctx.index), TrueLabel(j));
      CountTwo(TrueLabel(ctx.index), FalseLabel(ctx.index), FalseLabel(j));
      CountTwo(TrueLabel(ctx.index), FalseLabel(ctx.index), ReturnLabel(j));
    } else if cmd.Call? {
      GeneratedDistinct(j, ctx.returnAddress);
      GeneratedDistinct(ctx.returnAddress, j);
      CountOne(ReturnLabel(ctx.returnAddress), TrueLabel(j));
      CountOne(ReturnLabel(ctx.returnAddress), FalseLabel(j));
      CountOne(ReturnLabel(ctx.returnAddress), ReturnLabel(j));
    } else if cmd.Label? || cmd.Function? {
      GeneratedAreReserved(j);
      CountOne(cmd.name, TrueLabel(j));
      CountOne(cmd.name, FalseLabel(j));
      CountOne(cmd.name, ReturnLabel(j));
    }
  }

  lemma CountOne(x: string, y: string)
    ensures Count([x], y) == if x == y then 1 else 0
  {
    assert [x][1..] == [];
  }

  lemma CountTwo(x: string, y: string, z: string)
    ensures Count([x, y], z) == (if x == z then 1 else 0) + (if y == z then 1 else 0)
  {
    assert [x, y][1..] == [y];
    CountOne(y, z);
  }

  /** `ds` declares `labelTrue{j}` and `labelFalse{j}` once for each `j` in
      `[i0, i1)`, `RA${j}` once for each `j` in `[r0, r1)`, and none of the
      other generated labels. */
  ghost predicate DeclCounts(ds: seq<string>, i0: nat, i1: nat, r0: nat, r1: nat) {
    forall j: nat ::
      && Count(ds, TrueLabel(j)) == (if i0 <= j < i1 then 1 else 0)
      && Count(ds, FalseLabel(j)) == (if i0 <= j < i1 then 1 else 0)
      && Count(ds, ReturnLabel(j)) == (if r0 <= j < r1 then 1 else 0)
  }

  /** One command's declarations in front of those of the rest of a run. */
  lemma DeclCountsStep(ctx: Ctx, cmd: Command, rest: seq<string>, i1: nat, r1: nat)
    requires (cmd.Label? || cmd.Function?) ==> !Reserved(cmd.name)
    requires var i := ctx.index + (if cmd.Arithmetic? && IsComparison(cmd.op) then 1 else 0);
             var r := ctx.returnAddress + (if cmd.Call? then 1 else 0);
             i <= i1 && r <= r1 && DeclCounts(rest, i, i1, r, r1)
    ensures DeclCounts(CommandDecls(ctx, cmd) + rest, ctx.index, i1, ctx.returnAddress, r1)
  {
    var ds := CommandDecls(ctx, cmd);
    forall j: nat
      ensures && Count(ds + rest, TrueLabel(j)) == (if ctx.index <= j < i1 then 1 else 0)
              && Count(ds + rest, FalseLabel(j)) == (if ctx.index <= j < i1 then 1 else 0)
              && Count(ds + rest, ReturnLabel(j)) == (if ctx.returnAddress <= j < r1 then 1 else 0)
    {
      CommandDeclCounts(ctx, cmd, j);
      CountAppend(ds, rest, TrueLabel(j));
      CountAppend(ds, rest, FalseLabel(j));
      CountAppend(ds, rest, ReturnLabel(j));
    }
  }

  /** Every label a run of commands makes up is declared exactly once in the
      code of the run: `labelTrue{j}` and `labelFalse{j}` for each comparison
      number `j` the run draws, `RA${k}` for each call number `k`, and none
      of the numbers outside those ranges. */
  lemma {:induction false} RunLabelsUnique(ctx: Ctx, out: seq<string>, cmds: seq<Command>)
    requires Run(ctx, out, cmds).Success?
    requires UserNamesFree(cmds)
    ensures var (c, lines) := Run(ctx, out, cmds).value;
            DeclCounts(Decls(lines[|out|..]), ctx.index, c.index, ctx.returnAddress, c.returnAddress)
    decreases |cmds|
  {
    var (c, lines) := Run(ctx, out, cmds).value;
    if cmds == [] {
      assert lines[|out|..] == [];
    } else {
      RunStep(ctx, out, cmds);
      var (c1, code) := Generate(ctx, cmds[0]).value;
      UserNamesFreeTail(cmds);
      RunLabelsUnique(c1, out + code, cmds[1..]);
      GenerateDecls(ctx, cmds[0]);
      var rest := lines[|out + code|..];
      DeclsAppend(code, rest);
      DeclCountsStep(ctx, cmds[0], Decls(rest), c.index, c.returnAddress);
    }
  }

  /** A run of commands is the code of the first followed by the run of the
      others. */
  lemma RunStep(ctx: Ctx, out: seq<string>, cmds: seq<Command>)
    requires cmds != [] && Run(ctx, out, cmds).Success?
    ensures Generate(ctx, cmds[0]).Success?
    ensures var (c1, code) := Generate(ctx, cmds[0]).value;
            var lines := Run(ctx, out, cmds).value.1;
            && Run(ctx, out, cmds) == Run(c1, out + code, cmds[1..])
            && lines[|out|..] == code + lines[|out + code|..]
  {
    var (c1, code) := Generate(ctx, cmds[0]).value;
    assert Run(ctx, out, cmds) == Run(c1, out + code, cmds[1..]);
    PrefixSplit(out, code, Run(c1, out + code, cmds[1..]).value.1);
  }

  lemma UserNamesFreeTail(cmds: seq<Command>)
    requires cmds != [] && UserNamesFree(cmds)
    ensures UserNamesFree(cmds[1..])
    ensures (cmds[0].Label? || cmds[0].Function?) ==> !Reserved(cmds[0].name)
  {
    forall i | 0 <= i < |cmds[1..]| ensures
      (cmds[1..][i].Label? ==> !Reserved(cmds[1..][i].name)) && (cmds[1..][i].Function? ==> !Reserved(cmds[1..][i].name))
    {
      assert cmds[1..][i] == cmds[i + 1];
    }
  }

  // ---------------------------------------------------------------------------
  // Static symbols
  // ---------------------------------------------------------------------------

  lemma DotAt(p: string, d: string)
    ensures (p + "." + d)[|p|] == '.'
    ensures (p + "." + d)[..|p|] == p && (p + "." + d)[|p| + 1..] == d
  {
  }

  lemma DotSplitUnique(p1: string, d1: string, p2: string, d2: string)
    requires '.' !in p1 && '.' !in p2
    requires p1 + "." + d1 == p2 + "." + d2
    ensures p1 == p2 && d1 == d2
  {
    var s := p1 + "." + d1;
    if |p1| < |p2| {
      DotAt(p1, d1);
      assert false;
    } else if |p2| < |p1| {
      DotAt(p2, d2);
      assert false;
    }
    assert p1 == s[..|p1|] == p2;
    assert d1 == s[|p1| + 1..] == d2;
  }

  /** Two static variables share an assembler symbol only if they have the
      same offset in modules whose names agree up to the first dot: static
      variables of different modules never meet. */
  lemma StaticSymbolInjective(f: string, i: nat, g: string, j: nat)
    ensures StaticSymbol(f, i) == StaticSymbol(g, j) <==> Before(f, '.') == Before(g, '.') && i == j
  {
    if StaticSymbol(f, i) == StaticSymbol(g, j) {
      DotSplitUnique(Before(f, '.'), NatToString(i), Before(g, '.'), NatToString(j));
      NatToStringInjective(i, j);
    }
  }
}
