# SSBC machine core in Dafny

This project models the machine core of `ssbc-rs`, an emulator for a small
stack-based computer (SSBC). It covers the 16-bit wrapping addresses, the flat
64KiB memory, the memory-mapped ports and program status word (PSW), and the
`Ssbc` state machine with `reset`, the fetch helpers, the flag rule, the
11-opcode `step` and the `run` loop.

The model has two layers.

- **A value-level meaning** (module `Isa`). A `Machine` datatype holds the
  memory image (`seq<bv8>` of length 65536), `pc`, `sp`, `fault` and `halt`.
  `Step` is one `step`, with one function per instruction (`PushImmOp`,
  `AddOp`, …). `Exec(m, n)` is `n` steps. `RunFor(m, fuel)` is the `run` loop
  cut off after `fuel` iterations.
- **The imperative emulator** (module `Emulator`). Class `Ssbc` owns a
  `Storage.Memory`, a fixed 65536-byte `array<bv8>` updated in place. It also
  has the fields `pc`, `sp`, `fault` and `halt`. `Step`, the per-instruction
  methods and `Run` are proved to take `old(State())` to the state that `Isa`
  prescribes; `Reset`, `ReadIr`, `ReadExt` and `UpdatePsw` state their effect
  on the fields and on memory directly. `Step` fetches the opcode
  and then dispatches to one method per match arm of the source's `step`
  (`PushImm`, `AddTop`, …). Each arm's body is the source's, statement by
  statement.

Addresses are the integer range 0..65535 (`Addresses.Addr`). They use explicit
wrap-around addition and subtraction (`Add`, `Sub`), as `Wrapping<u16>` does.
Bytes are `bv8`, so `wrapping_add`, `wrapping_sub`, `|` and `!` are the native
8-bit operations. Memory is uniform: a push, a `popext` or the result of an
arithmetic instruction may land on the PSW cell (0xFFFB) or on a port cell, and
the model keeps this. In `add` and `sub` the result is stored at `sp + 2`
before the flag is stored at the PSW, so the flag wins when the two cells are
the same. `update_psw` yields 0x40 only for results above 128, so 128 itself
gives 0x00. The model keeps that boundary as written.

Lemmas in `IsaProperties` describe one step aspect by aspect: `pc`, `sp`, the
flags, which cells may change (`Written`) and what they receive. They also
cover the run loop: the flags are sticky, the early exit agrees with plain
stepping, more fuel changes nothing once the machine has stopped, and the loop
returns only on halt or fault. `Programs` runs whole machine-code images from
the post-`reset` state.

Details of the code that the model keeps as they are:

- In `pushimm 5; pushimm 3; add; halt` the sum 8 is stored at `sp + 2` with
  `sp` = 0xFFF8, that is at 0xFFFA, the final `sp + 1`; the cell 0xFFF9 still
  holds 3 (`Programs.AddProgram`).
- `popext` to 0xFFFB, a push with `sp` = 0xFFFB and a `nor` with `sp + 2` =
  0xFFFB all overwrite the PSW. `StepFrame`, `StepPopExt` and `StepNor` state
  exactly when it can change.
- A push writes at `sp` and then decrements `sp`.
- An invalid opcode still advances `pc` past itself, because the fetch has
  already moved it (`StepInvalid`).

## Model

| member | source | states |
|---|---|---|
| `Addresses.AddSubWrap` | src/main.rs:11-12 | the wrapping `Addr` operators `Add` and `Sub`: the plain sum when it is below 65536, otherwise the sum minus 65536; the plain difference when `k <= a`, otherwise the difference plus 65536 |
| `Addresses.WrapAtEdges` | src/main.rs:11-12 | 0xFFFF + 1 wraps to 0x0000 and 0x0000 - 1 wraps to 0xFFFF |
| `Addresses.SubUndoesAdd` | src/main.rs:11-12 | wrapping add and subtract by the same amount are inverse for every address, so wrapping never traps or loses information |
| `Addresses.AddAdd` | src/main.rs:124-127 | two successive wrapping advances equal one advance by their sum (reading `pc`, then `pc + 1`, then moving 2) |
| `Storage.LoadStore` | src/main.rs:74-82 | a store is seen by a load of the same address and by no other load |
| `Storage.Port.ToAddr` | src/main.rs:50-59 | each port maps to a fixed cell at or above 0xFFFC |
| `Storage.PortCells` | src/main.rs:42-63 | distinct ports use distinct cells, none of them the PSW 0xFFFB, all above the initial stack slot 0xFFFA |
| `Storage.Memory.constructor` | src/main.rs:71-73 | a new memory is 65536 zero bytes |
| `Storage.Memory.Get` | src/main.rs:74-76 | reading any of the 65536 addresses returns that cell's byte (no error path) |
| `Storage.Memory.Set` | src/main.rs:77-82 | after `Set(a, v)`, `Get(a)` is `v` and every other address is unchanged |
| `Isa.BigEndian` | src/main.rs:124-129 | the `ext` operand is first byte * 256 + second byte: dividing by 256 gives back the high byte and the remainder the low byte, with no 16-bit overflow |
| `Isa.Flag` | src/main.rs:130-135 | the PSW value is 0x80 iff the result is 0, 0x40 iff it is above 128, and 0x00 iff it is in 1..128 (so 128 gives 0x00) |
| `Emulator.Ssbc.constructor` | src/main.rs:91-103 | the default machine has all-zero memory, `pc` = `sp` = 0 and both flags clear |
| `Emulator.Ssbc.GetPsw` | src/main.rs:107-109 | returns the byte in the PSW cell 0xFFFB |
| `Emulator.Ssbc.Reset` | src/main.rs:111-116 | `pc` = 0x0000, `sp` = 0xFFFA, `fault` and `halt` cleared, whatever the prior state; memory untouched |
| `Emulator.Ssbc.ReadIr` | src/main.rs:117-122 | returns the byte at the old `pc` and advances `pc` by 1 (wrapping) |
| `Emulator.Ssbc.ReadExt` | src/main.rs:123-129 | returns the big-endian operand at `pc` and `pc + 1` (wrapping past 0xFFFF) and advances `pc` by 2 |
| `Emulator.Ssbc.UpdatePsw` | src/main.rs:130-135 | stores `Flag(val)` at the PSW and changes no other cell |
| `Emulator.Ssbc.Step` | src/main.rs:136-207 | the new machine state is `Isa.Step` of the old one: unchanged when halted or faulted, otherwise opcode fetched and executed |
| `Emulator.Ssbc.PushImm` | src/main.rs:147-152 | implements `Isa.PushImmOp`: the immediate byte is written at `sp`, then `sp -= 1`, `pc` past the operand |
| `Emulator.Ssbc.PushExt` | src/main.rs:153-158 | implements `Isa.PushExtOp`: the byte at the operand address is written at `sp`, then `sp -= 1` |
| `Emulator.Ssbc.PopInh` | src/main.rs:159-162 | implements `Isa.PopInhOp`: only `sp += 1` |
| `Emulator.Ssbc.PopExt` | src/main.rs:163-169 | implements `Isa.PopExtOp`: `mem[sp + 1]` is copied to the operand address, then `sp += 1` |
| `Emulator.Ssbc.Jnz` | src/main.rs:170-176 | implements `Isa.JnzOp`: `pc` becomes the operand iff the PSW is not 0x80 |
| `Emulator.Ssbc.Jnn` | src/main.rs:177-183 | implements `Isa.JnnOp`: `pc` becomes the operand iff the PSW is not 0x40 |
| `Emulator.Ssbc.AddTop` | src/main.rs:184-190 | implements `Isa.AddOp`: `mem[sp+2] + mem[sp+1]` (mod 256) stored at `sp + 2`, then its flag at the PSW, then `sp += 1` |
| `Emulator.Ssbc.SubTop` | src/main.rs:191-197 | implements `Isa.SubOp`: `mem[sp+1] - mem[sp+2]` (mod 256) stored at `sp + 2`, then its flag at the PSW, then `sp += 1` |
| `Emulator.Ssbc.NorTop` | src/main.rs:198-203 | implements `Isa.NorOp`: `!(mem[sp+2] \| mem[sp+1])` stored at `sp + 2`, then `sp += 1`, with no PSW update |
| `Emulator.Ssbc.Run` | src/main.rs:208-213 | the new state is `RunFor(old state, fuel)`: the step loop while neither flag is set, bounded by `fuel` |
| `IsaProperties.StepWhenStopped` | src/main.rs:138-141 | a halted or faulted machine is left exactly as it is by a step |
| `IsaProperties.StepNop` | src/main.rs:143-144 | `nop` only advances `pc` by 1 |
| `IsaProperties.StepHalt` | src/main.rs:145-146 | opcode 1 sets `halt` and advances `pc` by 1, nothing else changes |
| `IsaProperties.StepPopInh` | src/main.rs:159-162 | `popinh` only advances `pc` by 1 and `sp` by 1 |
| `IsaProperties.StepInvalid` | src/main.rs:204-205 | an opcode of 11 or more sets `fault`, advances `pc` by exactly 1 and leaves `sp`, `halt` and memory unchanged |
| `IsaProperties.StepFlags` | src/main.rs:142-206 | a running step sets `halt` iff the opcode is 1 and `fault` iff the opcode is above 10 |
| `IsaProperties.StepPc` | src/main.rs:142-206 | `pc` moves past the opcode and its 0, 1 or 2 operand bytes, or to the operand of a taken jump |
| `IsaProperties.StepJump` | src/main.rs:170-183 | `jnz`/`jnn` set `pc` to the operand iff the PSW is not 0x80/0x40, otherwise to just past the operand; nothing else changes |
| `IsaProperties.StepSp` | src/main.rs:147-203 | `sp` moves by -1 for pushes, +1 for `popinh`, `popext`, `add`, `sub` and `nor`, and 0 otherwise, wrapping |
| `IsaProperties.StepFrame` | src/main.rs:147-203 | only the cells in `Written` can change: `sp` for pushes, the operand address for `popext`, `sp + 2` and the PSW for `add`/`sub`, `sp + 2` for `nor` |
| `IsaProperties.StepPush` | src/main.rs:147-158 | a push writes its byte at the old `sp`, and that byte becomes the new top of the stack |
| `IsaProperties.StepPopExt` | src/main.rs:163-169 | `popext` copies the old top of stack to the operand address, whichever cell it is |
| `IsaProperties.StepAdd` | src/main.rs:184-190 | `add` writes the wrapped sum at `sp + 2`, then the flag at the PSW, and moves `sp` up by 1 |
| `IsaProperties.StepSub` | src/main.rs:191-197 | `sub` writes the wrapped top-minus-second at `sp + 2`, then the flag at the PSW, and moves `sp` up by 1 |
| `IsaProperties.StepArithmetic` | src/main.rs:184-197 | after `add`/`sub` the PSW is the result's flag, hence one of 0x00, 0x40, 0x80, even when `sp + 2` is the PSW cell; otherwise the result is the new top of the stack |
| `IsaProperties.StepNor` | src/main.rs:198-203 | `nor` leaves the NOR on top of the stack and leaves the PSW unchanged unless `sp + 2` is the PSW cell |
| `IsaProperties.ExecWhenStopped` | src/main.rs:138-141 | halt and fault are sticky: any number of steps leaves a stopped machine unchanged |
| `IsaProperties.ExecSplit` | src/main.rs:209-213 | `i + k` steps are `i` steps followed by `k` steps |
| `IsaProperties.StoppedStaysStopped` | src/main.rs:138-141 | once a machine has stopped after `i` steps, every later step count gives the same state |
| `IsaProperties.RunForIsExec` | src/main.rs:209-213 | leaving the loop on halt or fault gives the same state as running all `fuel` steps |
| `IsaProperties.RunForOutcome` | src/main.rs:209-213 | if the bounded loop ends on a running machine, none of the first `fuel` steps stopped it, so the loop returns only on halt or fault |
| `IsaProperties.RunForMoreFuel` | src/main.rs:209-213 | once the loop has reached halt or fault, a larger bound gives the same result |
| `Programs.StepFetches` | src/main.rs:138-142 | a running step executes the opcode at `pc` in the state with `pc` past it |
| `Programs.AddProgram` | src/main.rs:142-190 | `pushimm 5; pushimm 3; add; halt` halts with 8 on top of the stack at 0xFFFA, `sp` = 0xFFF9 and PSW 0x00 |
| `Programs.SubZeroProgram` | src/main.rs:142-197 | `pushimm 0; pushimm 0; sub; halt` halts with result 0 and PSW 0x80 |
| `Programs.NorKeepsPswProgram` | src/main.rs:184-203 | a `nor` after an `add` that set the PSW to 0x40 leaves the PSW at 0x40 |
| `Programs.JnzProgram` | src/main.rs:170-176 | `jnz 0x0010` jumps to 0x0010 when the PSW is not 0x80 and falls through to 0x0003 when it is |
| `Programs.JumpToSelfNeverStops` | src/main.rs:177-183 | `jnn 0x0000` at address 0 with a PSW other than 0x40 never halts or faults, so `run` need not terminate |

## Left out

- `Emulator.Ssbc.Run`: takes a `fuel` bound on the number of iterations. The source loop is unbounded and a program can make it diverge (`Programs.JumpToSelfNeverStops`). With enough fuel the bounded loop gives the source's result, and more fuel never changes a finished run (`IsaProperties.RunForMoreFuel`).
- `SsbcCli::repl` and `prompt`: console interaction on stdin and stdout.
- `SsbcCli::reset`: it reads the machine-code file `mac`, parses binary strings and panics on bad input. This is file I/O. Its effect on memory is a sequence of `Memory::set` calls, which is modelled.
- `read_port`, `write_port`, `status`, `top`, `psw`: they print and parse operator input. Their core content is `Port::to_addr`, `Memory::get`/`set` and `get_psw`, which are modelled.
- `main`: process entry point.
- The `Debug` formatting of `Addr` and the `derive_more` and `Default`/`Clone` plumbing are library glue. `Addr::from_u16` and the `From` conversions between `Addr`, `u16` and `usize` are identities here, because `Addr` is the `u16` range itself.
- `Memory::get_mut` is the borrow behind `set`. It is folded into `Memory.Set`.
