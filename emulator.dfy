/** The SSBC machine: memory plus program counter, stack pointer and the
    fault and halt flags, all updated in place by `Step`. Each method is
    proved to move the machine from `old(State())` to the state the
    instruction-set functions of module `Isa` prescribe. */
module Emulator {
  import opened Addresses
  import opened Storage
  import opened Isa

  class Ssbc {
    const memory: Memory
    /** Program counter. Set to 0x0000 by `Reset`. */
    var pc: Addr
    /** Stack pointer. Set to 0xFFFA by `Reset`. */
    var sp: Addr
    /** Raised when an instruction is invalid. */
    var fault: bool
    /** Raised by the halt instruction. */
    var halt: bool

    ghost predicate Valid()
      reads this, memory
    {
      memory.Valid()
    }

    /** The whole machine as a value. */
    ghost function State(): Machine
      reads this, memory, memory.cells
      requires Valid()
    {
      Machine(memory.Contents(), pc, sp, fault, halt)
    }

    /** The default machine: all-zero memory and registers, flags clear. */
    constructor ()
      ensures Valid() && fresh(memory) && fresh(memory.cells)
      ensures State() == Machine(Zeroes(), 0, 0, false, false)
    {
      memory := new Memory();
      pc, sp := 0, 0;
      fault, halt := false, false;
    }

    /** Retrieves the program status word. */
    function GetPsw(): (v: bv8)
      reads this, memory, memory.cells
      requires Valid()
      ensures v == Load(State().mem, PSW)
    {
      memory.Get(PSW)
    }

    /** Clears the flags and the program counter and sets the stack pointer
        to 0xFFFA; memory is left as it is. */
    method Reset()
      requires Valid()
      modifies this
      ensures Valid()
      ensures pc == 0x0000 && sp == 0xFFFA && !fault && !halt
      ensures memory.Contents() == old(memory.Contents())
    {
      pc := 0x0000;
      sp := 0xFFFA;
      fault := false;
      halt := false;
    }

    /** Reads the byte at the program counter and moves it 1 forward. */
    method ReadIr() returns (ir: bv8)
      requires Valid()
      modifies this`pc
      ensures ir == Load(State().mem, old(pc))
      ensures pc == Add(old(pc), 1)
    {
      ir := memory.Get(pc);
      pc := Add(pc, 1);
    }

    /** Reads the big-endian operand at the program counter (wrapping past
        0xFFFF) and moves it 2 forward. */
    method ReadExt() returns (ext: Addr)
      requires Valid()
      modifies this`pc
      ensures ext == Ext(State().mem, old(pc))
      ensures pc == Add(old(pc), 2)
    {
      var hi := memory.Get(pc);
      var lo := memory.Get(Add(pc, 1));
      pc := Add(pc, 2);
      ext := BigEndian(hi, lo);
    }

    /** Stores the flag value for an arithmetic result in the PSW cell. */
    method UpdatePsw(val: bv8)
      requires Valid()
      modifies memory.cells
      ensures memory.Contents() == Store(old(memory.Contents()), PSW, Flag(val))
    {
      memory.Set(PSW, if val > 128 then 0x40 else if val == 0 then 0x80 else 0x00);
    }

    /** Steps by a single instruction: nothing when halted or faulted,
        otherwise fetch the opcode and run the matching instruction. */
    method Step()
      requires Valid()
      modifies this, memory.cells
      ensures Valid()
      ensures State() == Isa.Step(old(State()))
    {
      if fault || halt {
        return;
      }
      var op := ReadIr();
      if op == NOP {
      } else if op == HALT {
        halt := true;
      } else if op == PUSHIMM {
        PushImm();
      } else if op == PUSHEXT {
        PushExt();
      } else if op == POPINH {
        PopInh();
      } else if op == POPEXT {
        PopExt();
      } else if op == JNZ {
        Jnz();
      } else if op == JNN {
        Jnn();
      } else if op == ADD {
        AddTop();
      } else if op == SUB {
        SubTop();
      } else if op == NOR {
        NorTop();
      } else {
        fault := true;
      }
    }

    /** `pushimm`: push the immediate byte that follows the opcode. */
    method PushImm()
      requires Valid()
      modifies this, memory.cells
      ensures Valid() && State() == PushImmOp(old(State()))
    {
      var ir := ReadIr();
      memory.Set(sp, ir);
      sp := Sub(sp, 1);
    }

    /** `pushext`: push the byte at the operand address. */
    method PushExt()
      requires Valid()
      modifies this, memory.cells
      ensures Valid() && State() == PushExtOp(old(State()))
    {
      var ext := ReadExt();
      memory.Set(sp, memory.Get(ext));
      sp := Sub(sp, 1);
    }

    /** `popinh`: discard the top of the stack. */
    method PopInh()
      requires Valid()
      modifies this
      ensures Valid() && State() == PopInhOp(old(State()))
    {
      sp := Add(sp, 1);
    }

    /** `popext`: pop the top of the stack into the operand address. */
    method PopExt()
      requires Valid()
      modifies this, memory.cells
      ensures Valid() && State() == PopExtOp(old(State()))
    {
      var ext := ReadExt();
      var pop := memory.Get(Add(sp, 1));
      memory.Set(ext, pop);
      sp := Add(sp, 1);
    }

    /** `jnz`: jump to the operand unless the PSW is 0x80 (Z). */
    method Jnz()
      requires Valid()
      modifies this
      ensures Valid() && State() == JnzOp(old(State()))
    {
      var ext := ReadExt();
      if memory.Get(PSW) != 0x80 {
        pc := ext;
      }
    }

    /** `jnn`: jump to the operand unless the PSW is 0x40 (N). */
    method Jnn()
      requires Valid()
      modifies this
      ensures Valid() && State() == JnnOp(old(State()))
    {
      var ext := ReadExt();
      if memory.Get(PSW) != 0x40 {
        pc := ext;
      }
    }

    /** `add`: replace the two top bytes by their sum and update the PSW. */
    method AddTop()
      requires Valid()
      modifies this, memory.cells
      ensures Valid() && State() == AddOp(old(State()))
    {
      ghost var s := State();
      var second := memory.Get(Add(sp, 2));
      var top := memory.Get(Add(sp, 1));
      assert second == Second(s) && top == Top(s);
      var result := second + top;
      memory.Set(Add(sp, 2), result);
      UpdatePsw(result);
      sp := Add(sp, 1);
    }

    /** `sub`: replace the two top bytes by top minus second and update
        the PSW. */
    method SubTop()
      requires Valid()
      modifies this, memory.cells
      ensures Valid() && State() == SubOp(old(State()))
    {
      ghost var s := State();
      var top := memory.Get(Add(sp, 1));
      var second := memory.Get(Add(sp, 2));
      assert second == Second(s) && top == Top(s);
      var result := top - second;
      memory.Set(Add(sp, 2), result);
      UpdatePsw(result);
      sp := Add(sp, 1);
    }

    /** `nor`: replace the two top bytes by their bitwise NOR; the PSW is
        not updated. */
    method NorTop()
      requires Valid()
      modifies this, memory.cells
      ensures Valid() && State() == NorOp(old(State()))
    {
      ghost var s := State();
      var second := memory.Get(Add(sp, 2));
      var top := memory.Get(Add(sp, 1));
      assert second == Second(s) && top == Top(s);
      var bwOr := second | top;
      memory.Set(Add(sp, 2), !bwOr);
      sp := Add(sp, 1);
    }

    /** Runs instructions until a halt instruction or a fault, executing at
        most `fuel` of them. */
    method Run(fuel: nat)
      requires Valid()
      modifies this, memory.cells
      ensures Valid()
      ensures State() == RunFor(old(State()), fuel)
    {
      var left := fuel;
      while !fault && !halt && left > 0
        invariant Valid()
        invariant RunFor(State(), left) == RunFor(old(State()), fuel)
      {
        Step();
        left := left - 1;
      }
    }
  }
}
