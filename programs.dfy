/** Whole programs run on the instruction-set model: small machine-code
    images loaded at address 0 and executed from a fresh `reset`. */
module Programs {
  import opened Addresses
  import opened Storage
  import opened Isa
  import opened IsaProperties

  /** The state `reset` leaves, with `prog` loaded from address 0 on; every
      other cell may hold anything. */
  predicate Booted(m: Machine, prog: seq<bv8>)
  {
    && m.pc == 0x0000 && m.sp == 0xFFFA && !m.fault && !m.halt
    && |prog| <= 0xFFF0
    && forall i | 0 <= i < |prog| :: m.mem[i] == prog[i]
  }

  /** One step of a running machine is the fetched instruction applied to
      the state with `pc` past the opcode. */
  lemma StepFetches(m: Machine)
    requires !Stopped(m)
    ensures Step(m) == Execute(Opcode(m), m.(pc := Add(m.pc, 1)))
  {
  }

  /** `pushimm 5; pushimm 3; add; halt` halts after four steps with the sum
      8 on top of the stack at 0xFFFA (the final `sp` is 0xFFF9) and a PSW of
      0x00; more fuel changes nothing. */
  lemma {:induction false} AddProgram(m: Machine, fuel: nat)
    requires Booted(m, [PUSHIMM, 5, PUSHIMM, 3, ADD, HALT]) && fuel >= 4
    ensures var t := RunFor(m, fuel);
      && t.halt && !t.fault && t.pc == 6 && t.sp == 0xFFF9
      && Top(t) == 8 && Load(t.mem, 0xFFFA) == 8 && Load(t.mem, PSW) == 0x00
  {
    StepFetches(m);
    var m1 := Step(m);
    assert m1 == PushImmOp(m.(pc := 1));
    assert m1.pc == 2 && m1.sp == 0xFFF9 && m1.mem == Store(m.mem, 0xFFFA, 5);
    StepFetches(m1);
    var m2 := Step(m1);
    assert m2 == PushImmOp(m1.(pc := 3));
    assert m2.pc == 4 && m2.sp == 0xFFF8 && m2.mem == Store(m1.mem, 0xFFF9, 3);
    StepFetches(m2);
    var m3 := Step(m2);
    assert m3 == AddOp(m2.(pc := 5));
    assert AddResult(m2) == 8;
    assert m3.pc == 5 && m3.sp == 0xFFF9 && Load(m3.mem, 0xFFFA) == 8 && Load(m3.mem, PSW) == 0x00;
    StepFetches(m3);
    var m4 := Step(m3);
    assert m4 == m3.(pc := 6, halt := true);
    assert RunFor(m, 4) == m4;
    RunForMoreFuel(m, 4, fuel);
  }

  /** `pushimm 0; pushimm 0; sub; halt` leaves the result 0 and the Z
      encoding 0x80 in the PSW. */
  lemma {:induction false} SubZeroProgram(m: Machine, fuel: nat)
    requires Booted(m, [PUSHIMM, 0, PUSHIMM, 0, SUB, HALT]) && fuel >= 4
    ensures var t := RunFor(m, fuel);
      && t.halt && !t.fault && t.pc == 6 && t.sp == 0xFFF9
      && Top(t) == 0 && Load(t.mem, PSW) == ZERO
  {
    StepFetches(m);
    var m1 := Step(m);
    assert m1 == PushImmOp(m.(pc := 1));
    assert m1.pc == 2 && m1.sp == 0xFFF9 && m1.mem == Store(m.mem, 0xFFFA, 0);
    StepFetches(m1);
    var m2 := Step(m1);
    assert m2 == PushImmOp(m1.(pc := 3));
    assert m2.pc == 4 && m2.sp == 0xFFF8 && m2.mem == Store(m1.mem, 0xFFF9, 0);
    StepFetches(m2);
    var m3 := Step(m2);
    assert m3 == SubOp(m2.(pc := 5));
    assert SubResult(m2) == 0;
    assert m3.pc == 5 && m3.sp == 0xFFF9 && Load(m3.mem, 0xFFFA) == 0 && Load(m3.mem, PSW) == ZERO;
    StepFetches(m3);
    var m4 := Step(m3);
    assert m4 == m3.(pc := 6, halt := true);
    assert RunFor(m, 4) == m4;
    RunForMoreFuel(m, 4, fuel);
  }

  /** `pushimm 200; pushimm 0; add; pushimm 1; nor; halt`: the `add` sets
      the N encoding 0x40, and the `nor` that follows leaves it in place
      while putting NOT(200 OR 1) = 0x36 on top of the stack. */
  lemma {:induction false} NorKeepsPswProgram(m: Machine, fuel: nat)
    requires Booted(m, [PUSHIMM, 200, PUSHIMM, 0, ADD, PUSHIMM, 1, NOR, HALT]) && fuel >= 6
    ensures var t := RunFor(m, fuel);
      && t.halt && !t.fault && t.pc == 9 && t.sp == 0xFFF9
      && Top(t) == 0x36 && Load(t.mem, PSW) == NEGATIVE
  {
    StepFetches(m);
    var m1 := Step(m);
    assert m1 == PushImmOp(m.(pc := 1));
    assert m1.pc == 2 && m1.sp == 0xFFF9 && m1.mem == Store(m.mem, 0xFFFA, 200);
    StepFetches(m1);
    var m2 := Step(m1);
    assert m2 == PushImmOp(m1.(pc := 3));
    assert m2.pc == 4 && m2.sp == 0xFFF8 && m2.mem == Store(m1.mem, 0xFFF9, 0);
    StepFetches(m2);
    var m3 := Step(m2);
    assert m3 == AddOp(m2.(pc := 5));
    assert AddResult(m2) == 200;
    assert m3.pc == 5 && m3.sp == 0xFFF9 && Load(m3.mem, 0xFFFA) == 200 && Load(m3.mem, PSW) == NEGATIVE;
    StepFetches(m3);
    var m4 := Step(m3);
    assert m4 == PushImmOp(m3.(pc := 6));
    assert m4.pc == 7 && m4.sp == 0xFFF8 && m4.mem == Store(m3.mem, 0xFFF9, 1);
    StepFetches(m4);
    var m5 := Step(m4);
    assert m5 == NorOp(m4.(pc := 8));
    assert NorResult(m4) == 0x36;
    assert m5.pc == 8 && m5.sp == 0xFFF9 && Load(m5.mem, 0xFFFA) == 0x36 && Load(m5.mem, PSW) == NEGATIVE;
    StepFetches(m5);
    var m6 := Step(m5);
    assert m6 == m5.(pc := 9, halt := true);
    assert RunFor(m, 6) == m6;
    RunForMoreFuel(m, 6, fuel);
  }

  /** `jnz 0x0010` at address 0 jumps when the PSW is not 0x80 and falls
      through to address 3 when it is. */
  lemma {:induction false} JnzProgram(m: Machine)
    requires Booted(m, [JNZ, 0x00, 0x10])
    ensures Step(m).pc == if Load(m.mem, PSW) != ZERO then 0x0010 else 0x0003
  {
    StepJump(m);
    assert Operand(m) == BigEndian(0x00, 0x10);
  }

  /** `jnn 0x0000` at address 0 with a PSW other than 0x40 jumps to itself
      forever: every step leaves the machine unchanged and running, so `run`
      never returns. */
  lemma {:induction false} JumpToSelfNeverStops(m: Machine, n: nat)
    requires Booted(m, [JNN, 0x00, 0x00]) && Load(m.mem, PSW) != NEGATIVE
    ensures Exec(m, n) == m && !Stopped(Exec(m, n))
    decreases n
  {
    if n > 0 {
      StepJump(m);
      assert Operand(m) == BigEndian(0x00, 0x00);
      assert Step(m) == m;
      JumpToSelfNeverStops(m, n - 1);
    }
  }
}
