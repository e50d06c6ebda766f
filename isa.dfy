/** The SSBC instruction set as a function on machine states: the meaning
    that the emulator's `Ssbc.Step` and `Ssbc.Run` are proved to implement. */
module Isa {
  import opened Addresses
  import opened Storage

  /** A whole machine: memory plus program counter, stack pointer and the
      two latched flags. */
  datatype Machine = Machine(mem: Image, pc: Addr, sp: Addr, fault: bool, halt: bool)

  /** Halted or faulted: `step` no longer does anything. */
  predicate Stopped(m: Machine)
  {
    m.fault || m.halt
  }

  // Opcodes. Every other byte value is invalid and faults.
  const NOP: bv8 := 0
  const HALT: bv8 := 1
  const PUSHIMM: bv8 := 2
  const PUSHEXT: bv8 := 3
  const POPINH: bv8 := 4
  const POPEXT: bv8 := 5
  const JNZ: bv8 := 6
  const JNN: bv8 := 7
  const ADD: bv8 := 8
  const SUB: bv8 := 9
  const NOR: bv8 := 10

  // PSW encodings.
  const ZERO: bv8 := 0x80
  const NEGATIVE: bv8 := 0x40

  /** The two bytes of an `ext` operand combined big-endian, first byte high.
      No 16-bit overflow is possible, and the two bytes can be recovered. */
  function BigEndian(hi: bv8, lo: bv8): (a: Addr)
    ensures a as int / 256 == hi as int && a as int % 256 == lo as int
  {
    (hi as int * 0x100 + lo as int) as Addr
  }

  /** The `ext` operand stored at `at` and `at + 1` (wrapping). */
  function Ext(mem: Image, at: Addr): Addr
  {
    BigEndian(Load(mem, at), Load(mem, Add(at, 1)))
  }

  /** The PSW value `update_psw` stores for an arithmetic result. */
  function Flag(v: bv8): (f: bv8)
    ensures f == ZERO <==> v == 0
    ensures f == NEGATIVE <==> v > 128
    ensures f == 0 <==> 0 < v <= 128
  {
    if v > 128 then NEGATIVE else if v == 0 then ZERO else 0x00
  }

  /** The byte on top of the stack, `mem[sp + 1]`. */
  function Top(m: Machine): bv8
  {
    Load(m.mem, Add(m.sp, 1))
  }

  /** The byte below the top of the stack, `mem[sp + 2]`. */
  function Second(m: Machine): bv8
  {
    Load(m.mem, Add(m.sp, 2))
  }

  /** The results the three arithmetic instructions compute from the two top
      stack bytes, wrapping modulo 256. `sub` subtracts the second byte from
      the top one. */
  function AddResult(m: Machine): bv8 { Second(m) + Top(m) }
  function SubResult(m: Machine): bv8 { Top(m) - Second(m) }
  function NorResult(m: Machine): bv8 { !(Second(m) | Top(m)) }

  /** One `step`: nothing when stopped; otherwise fetch the opcode at `pc`,
      advance `pc` past it, and execute. */
  function Step(m: Machine): Machine
  {
    if Stopped(m) then m
    else Execute(Load(m.mem, m.pc), m.(pc := Add(m.pc, 1)))
  }

  /** Executes opcode `op` in state `m`, whose `pc` is already past the
      opcode byte; an opcode outside 0..10 raises `fault`. */
  function Execute(op: bv8, m: Machine): Machine
  {
    if op == NOP then m
    else if op == HALT then m.(halt := true)
    else if op == PUSHIMM then PushImmOp(m)
    else if op == PUSHEXT then PushExtOp(m)
    else if op == POPINH then PopInhOp(m)
    else if op == POPEXT then PopExtOp(m)
    else if op == JNZ then JnzOp(m)
    else if op == JNN then JnnOp(m)
    else if op == ADD then AddOp(m)
    else if op == SUB then SubOp(m)
    else if op == NOR then NorOp(m)
    else m.(fault := true)
  }

  // The instructions, each applied to a state whose `pc` points just past
  // the opcode byte, at the instruction's operand if it has one.

  /** `pushimm`: the immediate byte is written at `sp`, then `sp -= 1`. */
  function PushImmOp(m: Machine): Machine
  {
    var ir := Load(m.mem, m.pc);
    m.(pc := Add(m.pc, 1), mem := Store(m.mem, m.sp, ir), sp := Sub(m.sp, 1))
  }

  /** `pushext`: the byte at the operand address is written at `sp`, then
      `sp -= 1`. */
  function PushExtOp(m: Machine): Machine
  {
    var ext := Ext(m.mem, m.pc);
    m.(pc := Add(m.pc, 2), mem := Store(m.mem, m.sp, Load(m.mem, ext)), sp := Sub(m.sp, 1))
  }

  /** `popinh`: `sp += 1`, discarding the top of the stack. */
  function PopInhOp(m: Machine): Machine
  {
    m.(sp := Add(m.sp, 1))
  }

  /** `popext`: the top of the stack is copied to the operand address, then
      `sp += 1`. */
  function PopExtOp(m: Machine): Machine
  {
    var ext := Ext(m.mem, m.pc);
    m.(pc := Add(m.pc, 2), mem := Store(m.mem, ext, Top(m)), sp := Add(m.sp, 1))
  }

  /** `jnz`: jump to the operand unless the PSW holds the Z encoding. */
  function JnzOp(m: Machine): Machine
  {
    var ext := Ext(m.mem, m.pc);
    m.(pc := if Load(m.mem, PSW) != ZERO then ext else Add(m.pc, 2))
  }

  /** `jnn`: jump to the operand unless the PSW holds the N encoding. */
  function JnnOp(m: Machine): Machine
  {
    var ext := Ext(m.mem, m.pc);
    m.(pc := if Load(m.mem, PSW) != NEGATIVE then ext else Add(m.pc, 2))
  }

  /** `add`: the sum is stored at `sp + 2`, then its flag at the PSW (so the
      flag wins when `sp + 2` is the PSW cell), then `sp += 1`. */
  function AddOp(m: Machine): Machine
  {
    var r := AddResult(m);
    m.(mem := Store(Store(m.mem, Add(m.sp, 2), r), PSW, Flag(r)), sp := Add(m.sp, 1))
  }

  /** `sub`: like `add`, with the difference top minus second. */
  function SubOp(m: Machine): Machine
  {
    var r := SubResult(m);
    m.(mem := Store(Store(m.mem, Add(m.sp, 2), r), PSW, Flag(r)), sp := Add(m.sp, 1))
  }

  /** `nor`: the bitwise NOR of the two top bytes is stored at `sp + 2`, then
      `sp += 1`; the PSW is not updated. */
  function NorOp(m: Machine): Machine
  {
    m.(mem := Store(m.mem, Add(m.sp, 2), NorResult(m)), sp := Add(m.sp, 1))
  }

  /** `n` successive steps. */
  function Exec(m: Machine, n: nat): Machine
    decreases n
  {
    if n == 0 then m else Exec(Step(m), n - 1)
  }

  /** The `run` loop, `while !fault && !halt { step() }`, cut off after at
      most `fuel` iterations. */
  function RunFor(m: Machine, fuel: nat): Machine
    decreases fuel
  {
    if Stopped(m) || fuel == 0 then m else RunFor(Step(m), fuel - 1)
  }
}
