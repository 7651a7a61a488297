/** The read-modify-write bit logic the driver applies to the heater
    fields of user registers 1 and 3. */
module Registers {

  /** Bit 2 of user register 1 switches the heater on. */
  const HeaterEnableBit: nat := 2

  /** The mask `1 << HeaterEnableBit`. */
  const HeaterEnableMask: bv8 := 1 << HeaterEnableBit

  /** Bits 3..0 of user register 3 hold the heater current. */
  const HeaterCurrentMask: bv8 := 0x0F

  /** The highest heater current the driver writes. */
  const MaxHeaterCurrent: int := 15

  /** Whether register 1 has the heater switched on. */
  predicate HeaterEnabled(reg1: bv8)
  {
    reg1 & HeaterEnableMask != 0
  }

  /** The heater current field of register 3. */
  function HeaterLevel(reg3: bv8): (level: nat)
    ensures level <= MaxHeaterCurrent
  {
    (reg3 & HeaterCurrentMask) as nat
  }

  /** Register 1 with the heater switched on or off: bit 2 is set for "on"
      and cleared otherwise. */
  function SetHeaterEnable(reg1: bv8, on: bool): (r: bv8)
    ensures HeaterEnabled(r) == on
    ensures r & !HeaterEnableMask == reg1 & !HeaterEnableMask
  {
    if on then reg1 | HeaterEnableMask else reg1 & !HeaterEnableMask
  }

  /** Register 3 with the heater current field cleared and, when `current`
      is a valid level, set to it; out-of-range requests leave the field 0. */
  function SetHeaterCurrent(reg3: bv8, current: int): (r: bv8)
    ensures r & !HeaterCurrentMask == reg3 & !HeaterCurrentMask
    ensures HeaterLevel(r) == if 0 <= current <= MaxHeaterCurrent then current else 0
  {
    var cleared := reg3 & 0xF0;
    if 0 <= current <= MaxHeaterCurrent then cleared | current as bv8 else cleared
  }

  /** A register is the union of a field and the bits outside it. */
  lemma {:induction false} Recombine(a: bv8, mask: bv8)
    ensures (a & mask) | (a & !mask) == a
  {
  }

  /** Two registers agree exactly when they agree on a field and on all the
      bits outside it. */
  lemma {:induction false} FieldsDetermineRegister(a: bv8, b: bv8, mask: bv8)
    ensures (a & mask == b & mask && a & !mask == b & !mask) <==> a == b
  {
    Recombine(a, mask);
    Recombine(b, mask);
    if a & mask == b & mask && a & !mask == b & !mask {
      calc {
        a;
        (a & mask) | (a & !mask);
        (b & mask) | (b & !mask);
        b;
      }
    }
  }

  /** Register 1 is fixed by its heater bit and its other seven bits. */
  lemma {:induction false} HeaterEnableDeterminesRegister(a: bv8, b: bv8)
    ensures (HeaterEnabled(a) == HeaterEnabled(b) && a & !HeaterEnableMask == b & !HeaterEnableMask)
        <==> a == b
  {
    FieldsDetermineRegister(a, b, HeaterEnableMask);
    assert HeaterEnableMask == 4;
  }

  /** Register 3 is fixed by its current field and its high nibble. */
  lemma {:induction false} HeaterLevelDeterminesRegister(a: bv8, b: bv8)
    ensures (HeaterLevel(a) == HeaterLevel(b) && a & !HeaterCurrentMask == b & !HeaterCurrentMask)
        <==> a == b
  {
    FieldsDetermineRegister(a, b, HeaterCurrentMask);
    assert (a & HeaterCurrentMask) as nat == (b & HeaterCurrentMask) as nat
      <==> a & HeaterCurrentMask == b & HeaterCurrentMask;
  }

  /** Switching the heater is idempotent, and the later of two switches is
      the one that counts. */
  lemma {:induction false} SetHeaterEnableLastWins(reg1: bv8, first: bool, second: bool)
    ensures SetHeaterEnable(SetHeaterEnable(reg1, first), second) == SetHeaterEnable(reg1, second)
    ensures SetHeaterEnable(SetHeaterEnable(reg1, second), second) == SetHeaterEnable(reg1, second)
  {
    HeaterEnableDeterminesRegister(SetHeaterEnable(SetHeaterEnable(reg1, first), second),
                                   SetHeaterEnable(reg1, second));
    HeaterEnableDeterminesRegister(SetHeaterEnable(SetHeaterEnable(reg1, second), second),
                                   SetHeaterEnable(reg1, second));
  }

  /** Writing back the heater state a register already has leaves it as it
      was. */
  lemma {:induction false} SetHeaterEnableKeeps(reg1: bv8)
    ensures SetHeaterEnable(reg1, HeaterEnabled(reg1)) == reg1
  {
    HeaterEnableDeterminesRegister(SetHeaterEnable(reg1, HeaterEnabled(reg1)), reg1);
  }

  /** Setting the heater current is idempotent, and the later of two
      settings is the one that counts. */
  lemma {:induction false} SetHeaterCurrentLastWins(reg3: bv8, first: int, second: int)
    ensures SetHeaterCurrent(SetHeaterCurrent(reg3, first), second) == SetHeaterCurrent(reg3, second)
    ensures SetHeaterCurrent(SetHeaterCurrent(reg3, second), second) == SetHeaterCurrent(reg3, second)
  {
    HeaterLevelDeterminesRegister(SetHeaterCurrent(SetHeaterCurrent(reg3, first), second),
                                  SetHeaterCurrent(reg3, second));
    HeaterLevelDeterminesRegister(SetHeaterCurrent(SetHeaterCurrent(reg3, second), second),
                                  SetHeaterCurrent(reg3, second));
  }

  /** An out-of-range current is the same request as current 0: the field
      is cleared and the register is still written. */
  lemma {:induction false} OutOfRangeCurrentClears(reg3: bv8, current: int)
    requires current < 0 || current > MaxHeaterCurrent
    ensures SetHeaterCurrent(reg3, current) == SetHeaterCurrent(reg3, 0)
  {
    HeaterLevelDeterminesRegister(SetHeaterCurrent(reg3, current), SetHeaterCurrent(reg3, 0));
  }

  /** Requesting the level a register already has leaves it as it was. */
  lemma {:induction false} SetHeaterCurrentKeeps(reg3: bv8)
    ensures SetHeaterCurrent(reg3, HeaterLevel(reg3)) == reg3
  {
    HeaterLevelDeterminesRegister(SetHeaterCurrent(reg3, HeaterLevel(reg3)), reg3);
  }
}
