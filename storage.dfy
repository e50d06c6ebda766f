/** The SSBC's flat 64KiB memory and the fixed cells at its top: the four
    I/O ports and the program status word. Memory does not distinguish code,
    data, stack, ports or PSW: every cell is an ordinary byte. */
module Storage {
  import opened Addresses

  /** The length of the SSBC's memory: one byte per address. */
  const MEMORY_LENGTH: int := ADDRESS_SPACE

  /** The value of a whole memory: exactly one byte per address. */
  type Image = s: seq<bv8> | |s| == MEMORY_LENGTH witness Zeroes()

  /** The all-zero memory a fresh machine starts with. */
  function Zeroes(): seq<bv8>
  {
    seq(MEMORY_LENGTH, _ => 0)
  }

  /** The byte at address `a`. */
  function Load(m: Image, a: Addr): bv8
  {
    m[a as int]
  }

  /** The memory with the byte at `a` replaced by `v`. */
  function Store(m: Image, a: Addr, v: bv8): Image
  {
    m[a as int := v]
  }

  /** A store is seen by a load of the same address and by no other load. */
  lemma LoadStore(m: Image, a: Addr, b: Addr, v: bv8)
    ensures Load(Store(m, a, v), b) == if a == b then v else Load(m, b)
  {
  }

  /** The address of the program status word. After an `add` or `sub` it
      holds 0x80 (Z), 0x40 (N) or 0x00. */
  const PSW: Addr := 0xFFFB

  /** The four ports. A and C are output, B and D are input; this is a
      convention of the operator console, not enforced by memory. */
  datatype Port = A | B | C | D
  {
    /** The fixed memory cell of each port. */
    function ToAddr(): (a: Addr)
      ensures 0xFFFC <= a
    {
      match this
      case A => 0xFFFC
      case B => 0xFFFD
      case C => 0xFFFE
      case D => 0xFFFF
    }
  }

  /** Distinct ports use distinct cells, none of them the PSW, and all of
      them above the stack's starting slot 0xFFFA. */
  lemma PortCells(p: Port, q: Port)
    ensures p.ToAddr() == q.ToAddr() <==> p == q
    ensures p.ToAddr() != PSW && p.ToAddr() > 0xFFFA
  {
  }

  /** The 64KiB of memory that the SSBC accesses, held in a fixed-size
      buffer that is updated in place. */
  class Memory {
    const cells: array<bv8>

    ghost predicate Valid()
    {
      cells.Length == MEMORY_LENGTH
    }

    /** The current contents as a value. */
    ghost function Contents(): Image
      reads cells
      requires Valid()
    {
      cells[..]
    }

    /** A zero-filled memory. */
    constructor ()
      ensures Valid() && fresh(cells)
      ensures Contents() == Zeroes()
    {
      cells := new bv8[MEMORY_LENGTH](_ => 0);
    }

    /** Every address is valid, so reading has no error path. */
    function Get(a: Addr): (v: bv8)
      reads cells
      requires Valid()
      ensures v == Load(Contents(), a)
    {
      cells[a as int]
    }

    /** Writes one byte; a following `Get(a)` returns `v` and every other
        address keeps its old byte. */
    method Set(a: Addr, v: bv8)
      requires Valid()
      modifies cells
      ensures Contents() == Store(old(Contents()), a, v)
      ensures Get(a) == v
      ensures forall b: Addr :: b != a ==> Get(b) == old(Get(b))
    {
      cells[a as int] := v;
    }
  }
}
