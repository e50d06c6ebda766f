/** 16-bit SSBC addresses. Program counter, stack pointer, ports and the
    program status word all live in one 64KiB address space, and every
    address computation wraps around modulo 65536 instead of trapping. */
module Addresses {

  /** Number of distinct addresses, and so the length of memory. */
  const ADDRESS_SPACE: int := 0x1_0000

  /** An address: an unsigned 16-bit value. */
  newtype Addr = a: int | 0 <= a < 0x1_0000

  /** Reduces any integer to an address, modulo 65536. */
  function Wrap(x: int): Addr
  {
    (x % ADDRESS_SPACE) as Addr
  }

  /** Wrapping addition (`Addr + Addr`, `Addr += Addr`). */
  function Add(a: Addr, k: Addr): Addr
  {
    Wrap(a as int + k as int)
  }

  /** Wrapping subtraction (`Addr - Addr`, `Addr -= Addr`). */
  function Sub(a: Addr, k: Addr): Addr
  {
    Wrap(a as int - k as int)
  }

  /** Addition and subtraction wrap exactly once: a sum that reaches 65536
      loses 65536, a difference below 0 gains it, and otherwise the plain
      integer result is kept. */
  lemma AddSubWrap(a: Addr, k: Addr)
    ensures a as int + k as int < ADDRESS_SPACE ==> Add(a, k) as int == a as int + k as int
    ensures a as int + k as int >= ADDRESS_SPACE ==> Add(a, k) as int == a as int + k as int - ADDRESS_SPACE
    ensures k <= a ==> Sub(a, k) as int == a as int - k as int
    ensures a < k ==> Sub(a, k) as int == a as int - k as int + ADDRESS_SPACE
  {
  }

  /** Stepping past the top of memory lands at the bottom, and back. */
  lemma WrapAtEdges()
    ensures Add(0xFFFF, 1) == 0x0000
    ensures Sub(0x0000, 1) == 0xFFFF
  {
  }

  /** Addition and subtraction by the same amount undo each other, for every
      address: no information is lost by wrapping. */
  lemma {:induction false} SubUndoesAdd(a: Addr, k: Addr)
    ensures Sub(Add(a, k), k) == a
    ensures Add(Sub(a, k), k) == a
  {
    var s := a as int + k as int;
    if s < ADDRESS_SPACE {
      assert Add(a, k) as int == s;
    } else {
      assert Add(a, k) as int == s - ADDRESS_SPACE;
    }
    var d := a as int - k as int;
    if d >= 0 {
      assert Sub(a, k) as int == d;
    } else {
      assert Sub(a, k) as int == d + ADDRESS_SPACE;
    }
  }

  /** Two successive wrapping additions are one wrapping addition of the sum:
      reading one byte and then another advances by two. */
  lemma {:induction false} AddAdd(a: Addr, j: Addr, k: Addr)
    requires j as int + k as int < ADDRESS_SPACE
    ensures Add(Add(a, j), k) == Add(a, (j as int + k as int) as Addr)
  {
    var s := a as int + j as int;
    if s < ADDRESS_SPACE {
      assert Add(a, j) as int == s;
    } else {
      assert Add(a, j) as int == s - ADDRESS_SPACE;
    }
  }
}
