# min-vm in Dafny

A model of min-vm, a small byte-code virtual machine written in Rust. The
machine has 256 bytes of memory, eight 8-bit registers and an 8-bit
instruction pointer `ip`. Only registers 0 to 6 can be named by an operand.
Each instruction is five bytes: an opcode, then two (addressing-mode,
operand) pairs. There are four addressing modes: constant, register, direct
memory, and memory through a register. `step` fetches the instruction at
`ip`, moves `ip` five bytes on, and runs one of fourteen opcodes.

Modules, following the source:

- `Util` (`util.dfy`): `copy`, the prefix copy used by `load` and by the
  instruction fetch.
- `Vm` (`vm.dfy`): the `u8` type, the `Error` enum, opcode and mode
  constants, the machine state, `new` and `load`.
- `Resolver` (`resolver.dfy`): `get` and `set`, plus a location view
  (`Resolve`, `Read`, `Write`). Both `Get` and `Set` are proved to agree with
  that view.
- `Engine` (`engine.dfy`): `binop`, the operator closures, and `step`.
- `Opcodes` (`opcodes.dfy`): what a step does, opcode by opcode.
- `Scenarios` (`scenarios.dfy`): the source's unit tests as lemmas, plus the
  general claim behind the last test.

Modelling choices:

- Every `&mut self` method is a pure function. The ones that can fail or
  panic (`set`, `binop`, `step`) return an `Effect`: either
  `Returned(machine, result)`, the machine as the call left it plus the
  returned `Result`, or `Panicked(cause)`, a Rust panic. `load` can do
  neither, so it returns the new machine.
- Integer overflow in `u8` follows a release build: `+`, `-` and `*` wrap
  modulo 256, and so do `ip += 5` and `ip - 5` (`Vm.Wrap`).
- Division or remainder by zero panics in every build, so it is modelled as
  `Panicked(OperatorPanicked)`. A closure's panic is a `None` result.
- Fetching at `ip > 251` takes the slice `mem[ip .. ip + 5]`, which is out of
  range and panics. This is `Panicked(FetchOutOfRange)`.
- `util::copy` takes a `&mut [T]`. Here the slice's old value goes in and its
  new value comes out. `Util.Copy` runs the source's loop; `Util.Copied` is
  the closed-form reference the machine uses.

Three behaviours of the code are easy to misread. The model follows the
code in each:

- A fetch near the end of memory panics on the slice `mem[ip .. ip + 5]`.
  It does not copy fewer bytes.
- A DIV or MOD whose divisor is 0 panics before writing. So it does not fail
  with `AssignToConstant`, even when operand 2 is a constant
  (`Opcodes.ConstantDestinationFails` excludes that case).
- `HitZero` and `OutOfInstructions` are never produced.

## Model

| member | source | states |
|---|---|---|
| `Util.Copied` | src/util.rs:1-8 | the result has `into`'s length; below `min(len(into), len(from))` it holds `from`'s elements, above that `into`'s own; no input is rejected |
| `Util.Copy` | src/util.rs:4-7 | the element-by-element loop yields exactly `Copied(into, from)`, for every pair of lengths |
| `Vm.New` | src/main.rs:44-50 | a new machine has all memory, all registers and `ip` equal to zero |
| `Vm.Load` | src/main.rs:52-54 | the program overwrites `mem[0 .. min(256, len)]`; the rest of memory, the registers and `ip` keep their values |
| `Resolver.Resolve` | src/main.rs:56-77 | an operand fails to resolve exactly when its mode byte is above 3, or it is a register or indirect operand naming register 7 or higher; a resolved register is always one of 0-6 |
| `Resolver.Write` | src/main.rs:83-101 | writing a location stores the value there; every other register and memory cell, and `ip`, keep their values |
| `Resolver.Get` | src/main.rs:56-78 | constant and direct-memory reads never fail; a register index of 7 or more gives `BadRegister(index)`; a mode above 3 gives `UnknownType`; a success returns the value at the operand's resolved location, and a failure returns the resolver's error |
| `Resolver.Set` | src/main.rs:80-106 | a constant gives `AssignToConstant`; otherwise it fails exactly when resolution fails, with the same error; a failure changes nothing; a success writes only the resolved cell, reading the operand back gives the written value, and register 7 is never changed |
| `Resolver.GetIgnoresRegisterSeven` | src/main.rs:59-75 | no read depends on register 7 |
| `Resolver.SetIgnoresRegisterSeven` | src/main.rs:83-101 | changing register 7 beforehand changes neither a write's outcome nor any other cell |
| `Engine.Advanced` | src/main.rs:118 | the machine the opcode sees: `ip` five bytes on, modulo 256, with memory and registers unchanged |
| `Engine.Fetch` | src/main.rs:116-117 | the fetched window is the five memory bytes starting at `ip` |
| `Engine.Binop` | src/main.rs:108-113 | an operand-1 error is returned first, then an operand-2 error; it panics exactly when both reads succeed and the operator panics; otherwise it is `set` of operand 2 to `f(s, d)`; a success changes only operand 2's cell, which reads back as `f(s, d)`; every error leaves the machine unchanged |
| `Engine.CompareByte` | src/main.rs:131-136 | the byte is 255 exactly when `d > s`, 1 exactly when `d < s`, and 0 exactly when they are equal |
| `Engine.Operator` | src/main.rs:125-145 | an operator panics exactly when it is DIV or MOD with a zero divisor |
| `Engine.Step` | src/main.rs:115-149 | the fetch panics exactly when `ip > 251`; an operator panic happens only for DIV or MOD; every error leaves `ip` five further on and memory and registers unchanged; every outcome except a successful JMP leaves `ip` five further on; a successful JMP sets `ip` to operand 1's value and changes nothing else; CRASH gives `ExplicitCrash`; IF and CALL only move `ip`; an opcode above 13 gives `UnknownInstruction` carrying the opcode and the instruction's own address; register 7 never changes; the opcode `match` (`Engine.Dispatch`, which has no contract of its own) is covered by these clauses and by the `Opcodes` lemmas |
| `Opcodes.ResolverIgnoresIp` | src/main.rs:56-106 | `get` and `set` do not depend on `ip`, which `step` has already advanced |
| `Opcodes.StepBinary` | src/main.rs:122-145 | for every binary opcode the outcome is, in this order: operand 1's error, operand 2's error, the operator's panic, or `set` of operand 2 to the operator's result |
| `Opcodes.StepBinaryWrites` | src/main.rs:108-113 | a binary opcode with readable operands, a writable operand 2 and no panic succeeds; it changes exactly operand 2's cell, to the operator's result |
| `Opcodes.ConstantDestinationFails` | src/main.rs:110-112 | a binary opcode with a constant operand 2, a readable operand 1 and no panic fails with `AssignToConstant`; only `ip` moves |
| `Opcodes.StepCompare` | src/main.rs:131-136 | CMP succeeds; the byte written is 255 exactly when `d > s`, 1 exactly when `d < s`, and 0 exactly when they are equal |
| `Opcodes.StepMove` | src/main.rs:145 | MOVE writes operand 1's value into operand 2's cell; nothing else changes but `ip`; operand 2 then reads back as that value |
| `Opcodes.StepMoveFailures` | src/main.rs:110-112 | MOVE into a constant fails with `AssignToConstant`; MOVE into register 7 or higher fails with `BadRegister` of that index, raised by the read of operand 2 |
| `Opcodes.StepArithmetic` | src/main.rs:125-138 | ADD, SUB and MUL write `d+s`, `d-s` and `d*s` modulo 256; DIV and MOD write `d/s` and `d%s`, and panic exactly when `s` is 0; AND and OR write the bitwise combination |
| `Opcodes.StepJump` | src/main.rs:130 | JMP sets `ip` to operand 1's value and changes nothing else; a read error is returned with `ip` advanced |
| `Opcodes.StepPrint` | src/main.rs:124 | PRINT succeeds exactly when operand 1 reads; either way only `ip` moves |
| `Opcodes.StepWritesOnlyOperandTwo` | src/main.rs:115-149 | any step that returns leaves memory and registers unchanged, except that a binary opcode may write operand 2's cell |
| `Scenarios.FreshMachineCrashes` | src/main.rs:152-156 | the first step of a new machine is `ExplicitCrash`, and `ip` becomes 5 |
| `Scenarios.MoveToConstantFails` | src/main.rs:158-163 | `[MOVE, CONST 5, CONST 10]` gives `AssignToConstant` |
| `Scenarios.MoveToBadRegisterFails` | src/main.rs:165-169 | `[MOVE, CONST 5, REG 15]` gives `BadRegister(15)` |
| `Scenarios.MoveToRegister` | src/main.rs:171-174 | `[MOVE, CONST 5, REG 0]` succeeds and `reg[0] == 5` |
| `Scenarios.MoveToMemoryDirect` | src/main.rs:177-183 | `[MOVE, CONST 5, MEM_C 15]` succeeds and `mem[15] == 5` |
| `Scenarios.MoveConstantToRegister` | src/main.rs:83-86 | `MOVE CONST a, REG r` leaves the machine with `reg[r] == a` and `ip` advanced, and nothing else changed |
| `Scenarios.MoveConstantIndirect` | src/main.rs:95-98 | `MOVE CONST v, MEM_R r` stores `v` at `mem[reg[r]]`, with `ip` advanced and nothing else changed |
| `Scenarios.IndirectMoveMatchesDirect` | src/main.rs:185-192 | for any machine, any address, value and register 0-6, loading the register and then storing through it both succeed; memory ends as a direct store at that address would leave it, and `ip` is ten bytes on (wrapping) |
| `Scenarios.MoveToMemoryIndirect` | src/main.rs:185-192 | the source's two-instruction program takes two successful steps and ends with `mem[15] == 5` |

## Left out

- The `println!` of PRINT (src/main.rs:124) is output. PRINT is modelled as
  a read of operand 1 whose only effects are error propagation and the `ip`
  advance. The printed byte is not returned.
- Debug-build overflow panics: `+`, `-`, `*` on `u8` and `ip += 5` at
  `ip == 251` panic in a debug build. The model follows release-build
  wrapping throughout.
- `HitZero` and `OutOfInstructions` are in the `Error` datatype, but no claim
  is made about them, since nothing produces them.
- `util::copy` is generic over `T: Clone`. The model is generic over `T` and
  copies by value; `Clone` has no observable effect on `u8`.
- The `#[test]` harness itself. Its scenarios are lemmas in `Scenarios`.
- Repeated stepping: the caller's run loop is outside `Machine`, and is not
  modelled beyond the two-step scenarios.
