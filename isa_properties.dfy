/** What one step and the run loop do, stated instruction by instruction
    and aspect by aspect: program counter, stack pointer, flags, which
    memory cells change and what they receive. */
module IsaProperties {
  import opened Addresses
  import opened Storage
  import opened Isa

  /** The opcode a running machine fetches next. */
  function Opcode(m: Machine): bv8
  {
    Load(m.mem, m.pc)
  }

  /** Number of operand bytes that follow each opcode in the program. */
  function OperandLength(op: bv8): nat
  {
    if op == PUSHIMM then 1
    else if op == PUSHEXT || op == POPEXT || op == JNZ || op == JNN then 2
    else 0
  }

  /** The `ext` operand of the instruction at `m.pc`. */
  function Operand(m: Machine): Addr
  {
    Ext(m.mem, Add(m.pc, 1))
  }

  /** Whether the instruction at `m.pc` is a jump that is taken: `jnz` when
      the PSW is not the Z encoding, `jnn` when it is not the N encoding. */
  predicate JumpTaken(m: Machine)
  {
    (Opcode(m) == JNZ && Load(m.mem, PSW) != ZERO)
    || (Opcode(m) == JNN && Load(m.mem, PSW) != NEGATIVE)
  }

  /** How far the stack pointer moves: pushes grow the stack downwards,
      pops and the three arithmetic instructions shrink it by one. */
  function StackEffect(op: bv8): int
  {
    if op == PUSHIMM || op == PUSHEXT then -1
    else if op == POPINH || op == POPEXT || op == ADD || op == SUB || op == NOR then 1
    else 0
  }

  /** The cells an instruction may write. */
  function Written(m: Machine): set<Addr>
  {
    var op := Opcode(m);
    if op == PUSHIMM || op == PUSHEXT then {m.sp}
    else if op == POPEXT then {Operand(m)}
    else if op == ADD || op == SUB then {Add(m.sp, 2), PSW}
    else if op == NOR then {Add(m.sp, 2)}
    else {}
  }

  // ---------------------------------------------------------------------
  // One step
  // ---------------------------------------------------------------------

  /** A halted or faulted machine does not change. */
  lemma StepWhenStopped(m: Machine)
    requires Stopped(m)
    ensures Step(m) == m
  {
  }

  /** Opcode 1 sets `halt` and only advances `pc` past itself. */
  lemma StepHalt(m: Machine)
    requires !Stopped(m) && Opcode(m) == HALT
    ensures Step(m) == m.(pc := Add(m.pc, 1), halt := true)
  {
  }

  /** `nop` only advances `pc` past itself. */
  lemma StepNop(m: Machine)
    requires !Stopped(m) && Opcode(m) == NOP
    ensures Step(m) == m.(pc := Add(m.pc, 1))
  {
  }

  /** `popinh` only advances `pc` past itself and moves `sp` up by one;
      the discarded byte stays in memory. */
  lemma StepPopInh(m: Machine)
    requires !Stopped(m) && Opcode(m) == POPINH
    ensures Step(m) == m.(pc := Add(m.pc, 1), sp := Add(m.sp, 1))
  {
  }

  /** An opcode of 11 or more sets `fault`, advances `pc` by exactly one and
      changes nothing else. */
  lemma StepInvalid(m: Machine)
    requires !Stopped(m) && Opcode(m) > NOR
    ensures Step(m) == m.(pc := Add(m.pc, 1), fault := true)
  {
  }

  /** Only opcode 1 halts and only an invalid opcode faults. */
  lemma StepFlags(m: Machine)
    requires !Stopped(m)
    ensures Step(m).halt <==> Opcode(m) == HALT
    ensures Step(m).fault <==> Opcode(m) > NOR
  {
  }

  /** The program counter moves past the opcode and its operand bytes, or
      to the operand of a taken jump. */
  lemma {:induction false} StepPc(m: Machine)
    requires !Stopped(m)
    ensures Step(m).pc ==
      if JumpTaken(m) then Operand(m) else Add(m.pc, (1 + OperandLength(Opcode(m))) as Addr)
  {
    var op := Opcode(m);
    if OperandLength(op) == 1 {
      AddAdd(m.pc, 1, 1);
    } else if OperandLength(op) == 2 {
      AddAdd(m.pc, 1, 2);
    }
  }

  /** `jnz` and `jnn` jump to their operand exactly when the PSW does not
      hold the flag they test; otherwise execution continues after the
      operand. Either way only `pc` changes. */
  lemma {:induction false} StepJump(m: Machine)
    requires !Stopped(m) && (Opcode(m) == JNZ || Opcode(m) == JNN)
    ensures Step(m) == m.(pc := Step(m).pc)
    ensures Opcode(m) == JNZ ==>
      Step(m).pc == if Load(m.mem, PSW) != ZERO then Operand(m) else Add(m.pc, 3)
    ensures Opcode(m) == JNN ==>
      Step(m).pc == if Load(m.mem, PSW) != NEGATIVE then Operand(m) else Add(m.pc, 3)
  {
    StepPc(m);
  }

  /** The stack pointer moves by the instruction's stack effect, wrapping. */
  lemma StepSp(m: Machine)
    requires !Stopped(m)
    ensures Step(m).sp == Wrap(m.sp as int + StackEffect(Opcode(m)))
  {
  }

  /** Only the cells in `Written(m)` can change. */
  lemma StepFrame(m: Machine)
    requires !Stopped(m)
    ensures forall a: Addr :: a !in Written(m) ==> Load(Step(m).mem, a) == Load(m.mem, a)
  {
  }

  /** A push stores its byte at the old `sp`, which becomes the new top of
      the stack: the byte after the opcode for `pushimm`, the byte at the
      operand address for `pushext`. */
  lemma {:induction false} StepPush(m: Machine)
    requires !Stopped(m) && (Opcode(m) == PUSHIMM || Opcode(m) == PUSHEXT)
    ensures var v := if Opcode(m) == PUSHIMM then Load(m.mem, Add(m.pc, 1))
                     else Load(m.mem, Operand(m));
      Load(Step(m).mem, m.sp) == v && Top(Step(m)) == v
  {
    SubUndoesAdd(m.sp, 1);
  }

  /** `popext` copies the top of the stack to its operand address, which may
      be any cell, the PSW and the ports included. */
  lemma StepPopExt(m: Machine)
    requires !Stopped(m) && Opcode(m) == POPEXT
    ensures Load(Step(m).mem, Operand(m)) == Top(m)
  {
  }

  /** `add` and `sub` leave their result on top of the stack, replacing the
      two operands, and put its flag in the PSW. When the result cell is the
      PSW cell itself, the flag overwrites the result. */
  lemma {:induction false} StepArithmetic(m: Machine)
    requires !Stopped(m) && (Opcode(m) == ADD || Opcode(m) == SUB)
    ensures var r := if Opcode(m) == ADD then AddResult(m) else SubResult(m);
      && Load(Step(m).mem, PSW) == Flag(r)
      && Load(Step(m).mem, PSW) in {0x00, NEGATIVE, ZERO}
      && (Add(m.sp, 2) != PSW ==> Top(Step(m)) == r)
  {
    var r := if Opcode(m) == ADD then AddResult(m) else SubResult(m);
    var t := Step(m);
    if Opcode(m) == ADD {
      StepAdd(m);
    } else {
      StepSub(m);
    }
    AddAdd(m.sp, 1, 1);
    LoadStore(Store(m.mem, Add(m.sp, 2), r), PSW, Add(t.sp, 1), Flag(r));
  }

  /** `nor` leaves its result on top of the stack and, unlike `add` and
      `sub`, does not touch the PSW unless its result cell is the PSW. */
  lemma {:induction false} StepNor(m: Machine)
    requires !Stopped(m) && Opcode(m) == NOR
    ensures Top(Step(m)) == NorResult(m)
    ensures Add(m.sp, 2) != PSW ==> Load(Step(m).mem, PSW) == Load(m.mem, PSW)
  {
    AddAdd(m.sp, 1, 1);
  }

  /** The state `add` leaves: the result and then its flag are stored. */
  lemma StepAdd(m: Machine)
    requires !Stopped(m) && Opcode(m) == ADD
    ensures Step(m).mem == Store(Store(m.mem, Add(m.sp, 2), AddResult(m)), PSW, Flag(AddResult(m)))
    ensures Step(m).sp == Add(m.sp, 1)
  {
    var f := m.(pc := Add(m.pc, 1));
    assert Step(m) == AddOp(f);
    assert AddResult(f) == AddResult(m);
  }

  /** The state `sub` leaves: the result and then its flag are stored. */
  lemma StepSub(m: Machine)
    requires !Stopped(m) && Opcode(m) == SUB
    ensures Step(m).mem == Store(Store(m.mem, Add(m.sp, 2), SubResult(m)), PSW, Flag(SubResult(m)))
    ensures Step(m).sp == Add(m.sp, 1)
  {
    var f := m.(pc := Add(m.pc, 1));
    assert Step(m) == SubOp(f);
    assert SubResult(f) == SubResult(m);
  }

  // ---------------------------------------------------------------------
  // Many steps and the run loop
  // ---------------------------------------------------------------------

  /** Halt and fault are sticky: no number of steps changes a stopped
      machine. */
  lemma {:induction false} ExecWhenStopped(m: Machine, n: nat)
    requires Stopped(m)
    ensures Exec(m, n) == m
    decreases n
  {
    if n > 0 {
      ExecWhenStopped(Step(m), n - 1);
    }
  }

  /** Running `i + k` steps is running `i` steps and then `k` more. */
  lemma {:induction false} ExecSplit(m: Machine, i: nat, k: nat)
    ensures Exec(m, i + k) == Exec(Exec(m, i), k)
    decreases i
  {
    if i > 0 {
      var next := Step(m);
      ExecSplit(next, i - 1, k);
      assert Exec(m, i + k) == Exec(next, i - 1 + k);
      assert Exec(m, i) == Exec(next, i - 1);
    }
  }

  /** Once a machine has stopped, later steps leave it exactly as it is. */
  lemma {:induction false} StoppedStaysStopped(m: Machine, i: nat, j: nat)
    requires i <= j && Stopped(Exec(m, i))
    ensures Exec(m, j) == Exec(m, i)
  {
    ExecSplit(m, i, j - i);
    ExecWhenStopped(Exec(m, i), j - i);
  }

  /** Leaving the loop early on halt or fault gives the same state as
      stepping `fuel` times, because steps after stopping change nothing. */
  lemma {:induction false} RunForIsExec(m: Machine, fuel: nat)
    ensures RunFor(m, fuel) == Exec(m, fuel)
    decreases fuel
  {
    if fuel > 0 {
      if Stopped(m) {
        ExecWhenStopped(m, fuel);
      } else {
        RunForIsExec(Step(m), fuel - 1);
      }
    }
  }

  /** The loop ends only on halt or fault: when it returns a running
      machine, none of the first `fuel` steps stopped the program. */
  lemma {:induction false} RunForOutcome(m: Machine, fuel: nat, k: nat)
    requires k <= fuel && !Stopped(RunFor(m, fuel))
    ensures !Stopped(Exec(m, k))
    decreases k
  {
    if k > 0 {
      assert !Stopped(m);
      var next := Step(m);
      assert RunFor(m, fuel) == RunFor(next, fuel - 1);
      RunForOutcome(next, fuel - 1, k - 1);
      assert Exec(m, k) == Exec(next, k - 1);
    }
  }

  /** Once the loop has reached halt or fault, more fuel changes nothing:
      the result does not depend on the bound. */
  lemma {:induction false} RunForMoreFuel(m: Machine, fuel: nat, more: nat)
    requires fuel <= more && Stopped(RunFor(m, fuel))
    ensures RunFor(m, more) == RunFor(m, fuel)
  {
    RunForIsExec(m, fuel);
    RunForIsExec(m, more);
    StoppedStaysStopped(m, fuel, more);
  }
}
