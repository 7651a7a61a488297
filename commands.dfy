/** The Si7013-A20 command table: every opcode is a fixed bus constant. */
module Commands {

  /** Bus address of the sensor (AD0 tied to ground). */
  const SlaveAddress: bv8 := 0x40

  /** Measure relative humidity, hold-master mode. */
  const MeasureRH: bv8 := 0xE5
  /** Read the temperature taken during the previous humidity measurement. */
  const ReadTemp: bv8 := 0xE0

  /** Write user registers 1 (RH/T setup), 2 (voltage setup), 3 (heater setup). */
  const WriteReg1: bv8 := 0xE6
  const WriteReg2: bv8 := 0x50
  const WriteReg3: bv8 := 0x51

  /** Read user registers 1, 2 and 3. */
  const ReadReg1: bv8 := 0xE7
  const ReadReg2: bv8 := 0x10
  const ReadReg3: bv8 := 0x11

  /** Two-byte command that reads the firmware revision. */
  const ReadFirmwareHigh: bv8 := 0x84
  const ReadFirmwareLow: bv8 := 0xB8

  /** Two-byte commands that read the two words of the electronic ID. */
  const ReadID1High: bv8 := 0xFA
  const ReadID1Low: bv8 := 0x0F
  const ReadID2High: bv8 := 0xFC
  const ReadID2Low: bv8 := 0xC9

  /** Microseconds the driver sleeps between the humidity command and the
      read of its result (12 ms + 10.8 ms conversion time, rounded up). */
  const ConversionMicros: nat := 25000
}
