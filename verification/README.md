# VM translator core, modelled in Dafny

The translator turns programs for a stack-based virtual machine into assembly
for the 16-bit Hack computer. This project models its two core classes:

- **`Parser`** (`parser.dfy`) is the instruction classifier. It cleans the raw
  source lines into the queue that `pre_process` fills: the text before `//`,
  stripped, with blank results dropped. It then classifies one cleaned line
  into a command kind and up to three words (`command_type`), and reads off
  the operands (`cmd_arg1`, `cmd_arg2`).
- **`CodeWriter`** (`codewriter.dfy`) is the code generator. It has one
  function per `write_*` / `*_operation` method and per private template.
  Each takes the translation context and returns the assembly lines it
  appends to the output queue, with the updated context. The context holds
  the comparison counter `index`, the return-address counter `return_address`
  and the module name `file_name`. `Generate`, `Emit` and `Run` are the
  model's own dispatcher, with no counterpart in the source. `Generate`
  picks the method for one command, `Emit` appends that method's lines to
  the output queue, and `Run` threads one context and one queue through a
  sequence of commands. The source defines no such dispatch: its driver
  calls a `translate_to_asm` method that `Codewriter` does not define.

Four supporting modules state what the generated code means:

- **`Text`** (`text.dfy`) writes out the Python string primitives the
  source relies on: `split('//')[0]`, `strip()`, `split()`, `str(n)`.
- **`Seqs`** (`seqs.dfy`) holds a generic flat-map over sequences.
- **`Hack`** (`hack.dfy`) is a small interpreter for the Hack instructions
  the templates emit:
  - 16-bit words whose wrap-around is written out;
  - a RAM that reads 0 where nothing was written;
  - symbol resolution as the Hack assembler does it, with a table `sym` for
    the addresses the assembler gives to labels and variables.
- **`Labels`** (`labels.dfy`) computes which labels each piece of generated
  code declares. It proves that every label the generator makes up is
  declared exactly once in the code of a run.
- **`Semantics`** (`semantics.dfy`) runs every template on the interpreter.
  It states the stack effect of each command, the call frame that `call`
  builds, and the way `return` unwinds that frame.

The result and error types are in `wrappers.dfy`.

`Codewriter.py:231-232` emits `add` with the operator `-`, so the generated
code for `add` computes `x - y`, exactly like `sub`. That contradicts the
nand2tetris VM specification (chapter 7 of *The Elements of Computing
Systems*), where `push constant 7`, `push constant 8`, `add` leaves `15` on
the stack, as its SimpleAdd test program checks. It also contradicts the
source's own docstring at `Codewriter.py:496-498`, which lists `"+"` as an
operation of the template. The model follows the code. `Semantics.Binary`
gives `add` the meaning the emitted code has. `Semantics.AddSubtracts`
shows the example ending with `0xFFFF` (that is, -1) on the stack where `15`
is expected.

## Model

| member | source | states |
|---|---|---|
| Parser.KindOf | Parser.py:79-98 | A first word selects a kind exactly when it is one of the eight keywords or one of the nine arithmetic names, and the kind it selects is one that word spells |
| Parser.CleanLine | Parser.py:29 | A cleaned line is the text before the first `//`, with only whitespace removed around it; it has no surrounding whitespace and no comment marker left |
| Parser.CleanOne | Parser.py:28-31 | One raw line adds its cleaned form to the queue, or adds nothing exactly when everything in front of its comment is whitespace |
| Parser.CleanLinesAreClean | Parser.py:28-31 | Every entry of the queue is non-empty, stripped and free of comments |
| Parser.CleanShrinks | Parser.py:28-31 | The queue never has more entries than the file has lines |
| Parser.CleanAppend | Parser.py:28-31 | Lines are cleaned one by one and in order: cleaning a concatenation concatenates the cleaned parts |
| Parser.CleanIdempotent | Parser.py:28-31 | Cleaning an already cleaned queue changes nothing |
| Parser.CleanedLinesHaveWords | Parser.py:28-31 | Every queued line has at least one word, so `command_type` can always be applied to it |
| Parser.CommandType | Parser.py:65-98 | More than three words is `InvalidNumberOfCommands` whatever they are. Otherwise the line classifies exactly when its first word names a command, else `InvalidCommandType`. A classified line keeps its words in order, and its kind is the one the first word spells |
| Parser.ClassifyUnparse | Parser.py:65-98 | Classifying the space-joined words of any well-formed command gives that command back: classification loses nothing |
| Parser.CmdArg1 | Parser.py:102-114 | The first operand is the command word itself for arithmetic and `return`, and the second word of the line otherwise |
| Parser.CmdArg2 | Parser.py:116-125 | The second operand exists only for push, pop, function and call, and is then the third word of the line |
| Parser.OperandsOfLine | Parser.py:65-125 | The operands of a classified line, stated in terms of the words of the line itself |
| CodeWriter.SetFileName | Codewriter.py:22-28 | Switching modules changes only the module name; both label counters carry over into the next module |
| CodeWriter.WriteArithmetic | Codewriter.py:226-250 | Exactly the nine operation names are accepted, and any other is `InvalidArithmetic`. Only the comparisons advance the comparison counter, by one each |
| CodeWriter.PushOperation | Codewriter.py:254-313 | Exactly the eight segments are accepted, and any other is an error. Accepted code starts with the `push` comment and ends with the push template |
| CodeWriter.PopOperation | Codewriter.py:317-390 | Every segment but `constant` is accepted, and `constant` or an unknown segment is an error. Accepted code starts with the `pop` comment |
| CodeWriter.WriteCall | Codewriter.py:78-150 | Call code loads the current return label, loads `5 + nArgs`, loads the callee, and ends by declaring the return label. The return counter goes up by one |
| CodeWriter.WriteInit | Codewriter.py:36-45 | Bootstrap code is `SP = 256` followed by an ordinary call of `Sys.init` with no arguments |
| CodeWriter.WriteFunction | Codewriter.py:152-165 | Function code is the entry label followed by exactly `nLocals` zero pushes |
| CodeWriter.Generate | Codewriter.py:226-390 | The model's own dispatcher. A command translates exactly when `write_arithmetic`, `push_operation` or `pop_operation` accepts it, and fails with the error that method raises. Only comparisons and calls advance their counters, by one each. What its code does is stated by `Semantics.GenerateEffect` |
| CodeWriter.Emit | Codewriter.py:17 | The lines one command puts on the single output queue are exactly that command's code, placed after everything emitted before; the context afterwards is the one the command leaves |
| CodeWriter.Run | Codewriter.py:150-470 | Each call bumps `return_address` once (line 150) and each comparison bumps `index` once (line 470). So after a run, the return counter has grown by the number of calls and the comparison counter by the number of comparisons. The earlier output is kept and the module name is unchanged |
| CodeWriter.RunAppend | Codewriter.py:16-20 | The queue and both counters belong to one code writer and persist between calls. Translating `a + b` is translating `a` and then `b` from the queue and context `a` left |
| CodeWriter.RunSucceeds | Codewriter.py:226-390 | A run completes exactly when every command in it is accepted by the method that translates it |
| Labels.CompareTemplateDecls | Codewriter.py:424-470 | A comparison declares exactly its own true and false labels |
| Labels.WriteCallDecls | Codewriter.py:78-150 | A call declares exactly one label, its own return label |
| Labels.WriteInitDecls | Codewriter.py:36-45 | The bootstrap declares exactly the return label of its call |
| Labels.WriteFunctionDecls | Codewriter.py:152-165 | A function declares exactly its own name |
| Labels.WriteReturnDecls | Codewriter.py:167-222 | The return sequence declares no label |
| Labels.GenerateDecls | Codewriter.py:49-390 | Each command declares exactly the labels its kind calls for: comparison, call, label and function labels, and nothing else |
| Labels.GeneratedDistinct | Codewriter.py:101 | True, false and return labels never collide with each other, and each is different for different counter values |
| Labels.RunLabelsUnique | Codewriter.py:101-470 | Suppose the program's own label and function names avoid the generated patterns. Then a run declares `RA${k}` exactly once for every return counter value `k` it used (lines 101, 149-150). It declares `labelTrue{i}` and `labelFalse{i}` exactly once for every comparison counter value `i` it used (lines 446-470). No other generated label is declared |
| Labels.StaticSymbolInjective | Codewriter.py:284-290 | Two static symbols are equal exactly when their module names agree before the first dot and their offsets agree |
| Semantics.PushEffect | Codewriter.py:254-313 | On the machine, `push segment i` pushes the value the segment's addressing rule selects. Nothing but SP and the new top cell changes |
| Semantics.PopEffect | Codewriter.py:317-390 | `pop segment i` moves the top value into the address the segment's rule selects and lowers SP. Nothing else changes but the scratch register R13 |
| Semantics.PushThenPop | Codewriter.py:254-390 | Pushing a segment cell and popping it back into the same cell restores SP and that cell. Only the dead stack slot and R13 differ |
| Semantics.ArithmeticEffect | Codewriter.py:472-514 | `neg` and `not` replace the top value by its negation or complement. `sub`, `and`, `or` and `add` replace the two top values by one result |
| Semantics.AddSubtracts | Codewriter.py:231-232 | The emitted `add` leaves `0xFFFF` after pushing 7 and 8, where the sum would be 15 |
| Semantics.CompareEffect | Codewriter.py:424-470 | `eq`, `gt` and `lt` replace the two top values by true (all ones) or false (zero), and the code falls through to the next command |
| Semantics.CompareMeaning | Codewriter.py:424-470 | When the difference fits in 16 bits, the comparison result agrees with signed equality, greater-than and less-than |
| Semantics.LabelEffect | Codewriter.py:49-55 | A label declaration does nothing at run time |
| Semantics.GotoEffect | Codewriter.py:57-63 | `goto` jumps to the label's address unconditionally and changes no memory |
| Semantics.IfGotoEffect | Codewriter.py:65-76 | `if-goto` pops the top value and jumps exactly when that value is not zero |
| Semantics.FunctionEffect | Codewriter.py:152-165 | Function entry pushes exactly `nLocals` zeros and changes nothing else |
| Semantics.CallEffect | Codewriter.py:78-150 | A call pushes the return address and the caller's LCL, ARG, THIS and THAT. It then sets ARG to `SP - 5 - nArgs` and LCL to the new SP, and jumps to the callee |
| Semantics.InitEffect | Codewriter.py:36-45 | The bootstrap enters `Sys.init` with SP = 261, LCL = 261 and ARG = 256, over a frame saved at 256 |
| Semantics.ReturnEffect | Codewriter.py:167-222 | A return puts the result at `*ARG` and sets SP to ARG + 1. It restores THAT, THIS, ARG and LCL from `frame-1` to `frame-4`, and jumps to `*(frame-5)` |
| Semantics.GenerateEffect | Codewriter.py:49-390 | The code the dispatcher emits for any command, run on the machine, has the effect of that command's kind. The effects are those of the per-method lemmas above: stack effects for arithmetic, push and pop; jumps for goto and if-goto; zero locals for function; the frame for call and return |
| Semantics.CallThenReturn | Codewriter.py:78-222 | The function's body keeps the frame a call built. Returning then restores the caller's four pointers, drops the arguments, and leaves the result where the first argument was. It jumps back to the call's return label |
| Text.SplitJoin | Parser.py:65-66 | Splitting space-joined words gives the words back |
| Text.ParseNatToString | Codewriter.py:276-282 | The decimal text of an offset reads back as the same number |

## Left out

- File I/O. Reading the `.vm` file and the output `Queue` are not modelled: the queue is a `seq<string>` that code is appended to.
- Output messages. The console message of `set_file_name` is not modelled.
- The driver. `VMTranslator.py` is not part of this model. This includes directory walking and the linking of several modules into one program. `SetFileName` keeps both counters, and `Labels.RunLabelsUnique` holds from any starting context. These two facts are what linking relies on.
- A working dispatcher. The source has none: `VMTranslator.py:20` calls `translate_to_asm`, and line 22 calls `end_operation`; `Codewriter.py` defines neither. `Generate` supplies the dispatch, with the command kinds of `Parser` mapped onto the `write_*` and `*_operation` methods one to one.
- `has_more_lines` and `advance`. They only consume the queue and are not modelled.
- Parser state. The parser's fields that outlive one `command_type` call are not modelled; a classification is a value.
- Number conversion. Operands are taken as naturals, and numbers are written back with `NatToString`. The source itself mixes strings and integers:
  - `int(n_args)` (`Codewriter.py:131`) and `range(int(local_vars))` (`Codewriter.py:162`) expect the operand as text;
  - `offset + self._segment_asm[segment]` (`Codewriter.py:308`, `Codewriter.py:387`) raises a TypeError when the offset is text, as the parser delivers it;
  - `str()` of an unconverted operand keeps leading zeros, so `push constant 007` emits `@007` where the model emits `@7`. The Hack assembler loads 7 for both.
- Parser.CommandType: `requires Split(line) != []` excludes a line with no words. The source answers that case from leftover parser state: `Parser.py:65-76` sets no field, so `arg0` keeps its old value. On the first call that value is `None` (`Parser.py:8`), and `Parser.py:97-98` raises "Invalid Command Type Detected!". After an earlier command, the previous line's kind is returned again, with its stale operands. The case cannot occur on the queue `pre_process` fills (`Parser.CleanedLinesHaveWords`).
- Assembler symbols. Assembling and the assembler's symbol allocation are not modelled. Label and variable addresses are a parameter `sym`.
- Semantics.PushEffect: holds only for a sane stack (SP from 256 up to the screen) and for operands the Hack assembler can encode: offsets below 2^15, `pointer`/`temp` cells within R0-R15, and static symbols that have an address in `sym`.
- Semantics.PopEffect: has the same requirements as `Semantics.PushEffect`. It says nothing about the final RAM when the target address is RAM[0], the stack pointer itself (a base pointer plus offset that wraps to 0, or a static symbol placed at 0).
- Semantics.PushThenPop: likewise excludes a target cell at address 0.
- Semantics.CompareMeaning: states the signed meaning only when `x - y` does not overflow 16 bits. Beyond that, the code compares the wrapped difference, as the Hack machine does.
- Semantics.CompareEffect: assumes that the assembler gives the true and false labels different addresses.
- Semantics.CallEffect: assumes that the return label and the callee have different addresses.
- Semantics.InitEffect: makes the same assumption as `Semantics.CallEffect`.
- Semantics.ArithmeticEffect: each stack effect needs the one or two operands to be present on a sane stack.
- Semantics.FunctionEffect: the stack needs room for the zeros.
- Semantics.ReturnEffect: holds on a frame whose saved cells and stack lie within the address space (`FrameOk`).
- Labels.RunLabelsUnique: requires the program's own `label` and `function` names to avoid the `labelTrue`, `labelFalse` and `RA$` prefixes. The generator does not check this.
- Whole programs. No end-to-end run of a whole program is composed: each command's code is described on its own. `Semantics.ExecAppend` is what joins them.
