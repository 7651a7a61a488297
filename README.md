# Si7013-A20 humidity and temperature sensor driver, modelled in Dafny

The driver talks to a Silicon Labs Si7013-A20 over the Linux I2C character
device. Class `Si7013A20` keeps a two-byte transmit buffer, a three-byte
receive buffer and the last humidity and temperature values. On top of three
bus primitives it builds three transactions:

- `transmitByte` writes a one-byte command frame.
- `transmitWord` writes a two-byte frame.
- `receiveData` reads a fixed number of bytes.
- `readRHT` measures relative humidity and computes the CRC-8 of the two
  code bytes for display, without acting on a mismatch. It then reads the
  temperature taken with the measurement.
- `heaterControls` switches the heater on or off in user register 1, then
  sets the heater current in user register 3. Both updates are
  read-modify-write.
- `readDetail` reads user registers 1 to 3 and the firmware revision.

A transfer that moves fewer bytes than asked for ends the transaction with an
error, and nothing further goes over the bus.

The model, one module each:

- `Errors`: a failure carries the text the driver prints. Process exit
  becomes a returned `Outcome` or `Result`.
- `Commands`: the opcode table.
- `Checksum`: the CRC-8 (polynomial 0x131, MSB first, initial value 0). It
  appears twice:
  - as a specification function, `Crc8`;
  - as the driver's nested loop, the method `ComputeChecksum`, proved equal
    to it.
- `Registers`: the heater bit of register 1 and the heater-current field of
  register 3, as pure byte functions.
- `Samples`: assembly of a 16-bit code from MSB and LSB. The datasheet
  equations for %RH, degrees Celsius and Fahrenheit are over reals.
- `Transport`: the bus.
  - `Bus` is a class that keeps a log of events. Its state is what the
    device on the other end will still take (`budget`, in bytes written) and
    what it will still answer (`pending`, the bytes later reads return).
  - `Transfer` is the pure meaning of one request.
  - `Perform` runs a script of requests in order and stops after the first
    short transfer.
  - `Completed` says that an operation ran a script. Its log grew by
    exactly the script's run, and the bus is where that run left it. It
    passed exactly when no transfer was short. A failure carries the
    message of the request it stopped at.
- `Sensor`: class `Si7013A20`, kept in the source's own form.
  - `txBuffer` and `rxBuffer` are arrays.
  - Commands are loaded into `txBuffer`.
  - Replies are copied into `rxBuffer` by a loop.
  - The register bits are changed in place in `rxBuffer[0]`.
  - Each transaction is proved to have `Completed` its script. A
    closed-form condition states when it passes. Lemmas give the exact
    frames on the bus when it passes.

One device's behaviour during one operation is fully described by `budget`
and `pending`. The operation stops at its first short transfer, so some
budget and pending queue reproduce any run: a short write after any earlier
writes, or a short read after any earlier reads. The power-on state of the
sensor and the values it reports are not modelled beyond being bytes.

## Model

| member | source | states |
|---|---|---|
| Checksum.TruncatedPolynomial | main.cpp:84-87 | shifting in `int`, XORing 0x131 and storing back into 8 bits is the 8-bit step "shift, XOR 0x31 if the top bit was set" |
| Checksum.ComputeChecksum | main.cpp:80-89 | the nested loop over the two humidity bytes gives the CRC-8 of those bytes, `Crc8([b0, b1])` |
| Checksum.ChecksumOfZeros | main.cpp:80-89 | the checksum of two zero bytes is 0 |
| Checksum.ChecksumResidueIsZero | main.cpp:80-89 | the loop run over the data followed by its own checksum ends at 0 |
| Checksum.FeedDetectsByteChange | main.cpp:81-89 | two inputs that differ in one byte, at any position, give different checksums. They agree exactly when the byte is the same |
| Checksum.ChecksumDetectsByteError | main.cpp:80-89 | XORing an error pattern into either humidity byte changes the checksum exactly when the pattern is nonzero |
| Checksum.ChecksumFrom | main.cpp:80-89 | the checksum loop exactly as written, run from whatever value the accumulator holds. Its result equals the result from 0 exactly when that value is 0 |
| Checksum.UninitialisedAccumulatorCorrupts | main.cpp:80 | started from any nonzero accumulator, the loop gives a value different from the CRC-8, for every input |
| Registers.HeaterLevel | main.cpp:117-119 | the heater-current field is at most 15 |
| Registers.SetHeaterEnable | main.cpp:108-111 | the heater-enable bit ends up set exactly for "on", and the other seven bits are unchanged |
| Registers.SetHeaterCurrent | main.cpp:117-119 | the high nibble is unchanged. The current field equals the requested current when it is in 0..15, and 0 otherwise |
| Registers.HeaterEnableDeterminesRegister | main.cpp:108-111 | register 1 is fixed by its heater bit and its other bits, in both directions |
| Registers.HeaterLevelDeterminesRegister | main.cpp:117-119 | register 3 is fixed by its current field and its high nibble, in both directions |
| Registers.SetHeaterEnableLastWins | main.cpp:108-111 | switching twice is the same as switching once to the second state, and switching is idempotent |
| Registers.SetHeaterEnableKeeps | main.cpp:108-111 | writing back the state the register already has leaves it unchanged |
| Registers.SetHeaterCurrentLastWins | main.cpp:117-119 | setting the current twice is the same as setting it once to the second value, and setting is idempotent |
| Registers.SetHeaterCurrentKeeps | main.cpp:117-119 | requesting the level the register already has leaves it unchanged |
| Registers.OutOfRangeCurrentClears | main.cpp:118-120 | an out-of-range current writes the same register value as current 0 |
| Samples.RawCode | main.cpp:77 | the code is MSB * 256 + LSB, below 65536 |
| Samples.RawCodeRoundTrip | main.cpp:97 | dividing the code by 256 gives back the MSB, and the remainder is the LSB |
| Samples.RawCodeSignedChar | main.cpp:77 | `rxBuffer[0] << 8` ORed with `rxBuffer[1]` where plain `char` is signed, as at main.cpp:77 and again at 97. The code stays below 65536 and its low byte is always the LSB, so only the high byte can go wrong |
| Samples.SignExtend | main.cpp:36 | a signed `char` widened to `int` keeps its low byte. It is unchanged below 0x80, and its upper 24 bits are set otherwise |
| Samples.SignedCharAgreesBelow0x80 | main.cpp:77 | with a signed `char` buffer the code is still right when the LSB is below 0x80 |
| Samples.SignedCharCorruptsCode | main.cpp:77 | with a signed `char` buffer and LSB at least 0x80, the code is 0xFF00 + LSB. It is right only when the MSB is 0xFF |
| Samples.SignedCharCounterexample | main.cpp:77 | bytes 0x12 0x80 stand for 0x1280, but the signed reading gives 0xFF80 |
| Samples.Humidity | main.cpp:78 | the datasheet equation RH = 125 * code / 65536 - 6 over exact reals. A 16-bit code gives a value in [-6, 119) |
| Samples.Celsius | main.cpp:98 | the datasheet equation T = 175.72 * code / 65536 - 46.85 over exact reals. A 16-bit code gives a value in [-46.85, 128.87) |
| Samples.Fahrenheit | main.cpp:99 | F = C * 1.8 + 32 over exact reals. Subtracting 32 and dividing by 1.8 gives back the Celsius value |
| Samples.HumidityRange | main.cpp:78 | every 16-bit code maps into [-6, 119) %RH, strictly increasing in the code |
| Samples.CelsiusRange | main.cpp:98 | every 16-bit code maps into [-46.85, 128.87) degrees Celsius, strictly increasing in the code |
| Samples.FahrenheitInverse | main.cpp:99 | the Fahrenheit conversion is invertible, and sends 0 and 100 degrees Celsius to 32 and 212 |
| Transport.TransferMeaning | main.cpp:49-71 | a transfer answers its request. It is short exactly when the request needs more than the device takes or answers. A write spends budget only on accepted bytes. A read takes its bytes off the front of the pending queue. A pause changes nothing |
| Transport.PerformFollowsScript | main.cpp:49-71 | event `i` of a run answers request `i`. The run is no longer than the script. Only its last event can be short, and it is short when the run ended early |
| Transport.PerformConserves | main.cpp:49-71 | the bytes received followed by what is still pending are what was pending before. The bytes accepted plus the remaining budget are the budget before |
| Transport.PerformSucceedsIff | main.cpp:49-71 | a run has no short transfer exactly when the script's write and read demand fit the device. Then it has run the whole script and used up exactly that demand |
| Transport.PerformAppend | main.cpp:49-71 | running two scripts back to back runs the first alone when it is cut short, and otherwise continues with the second from where the first left the bus |
| Transport.NoShortAppend | main.cpp:49-71 | two runs back to back have no short transfer exactly when neither has one |
| Transport.CompletedFail | main.cpp:49-71 | an operation that failed in the first of two scripts has completed both, failing at the same request and with the same message |
| Transport.CompletedThen | main.cpp:49-71 | an operation that passed the first of two scripts and then ran the second has completed both, with the second's outcome |
| Transport.Bus.Write | main.cpp:51 | a write logs its frame with the number of bytes the device accepted, the smaller of the frame length and the budget, and spends that much budget |
| Transport.Bus.Sleep | main.cpp:75 | a sleep is logged and changes nothing else |
| Transport.Bus.Read | main.cpp:67 | a read returns as many pending bytes as there are, up to the count, off the front of the queue, and logs them |
| Sensor.Si7013A20.TransmitByte | main.cpp:49-55 | loads the command into `txBuffer[0]` and writes that one byte. It fails with the given message exactly when the write was short |
| Sensor.Si7013A20.TransmitWord | main.cpp:57-64 | loads both bytes into `txBuffer` and writes them. It fails with the given message exactly when the write was short |
| Sensor.Si7013A20.ReceiveData | main.cpp:66-71 | the bytes that arrived are at the front of `rxBuffer` and the rest is unchanged. It fails with the given message exactly when fewer bytes arrived than asked for |
| Sensor.Si7013A20.MeasureHumidity | main.cpp:74-89 | runs measure command, 25000 us pause and three-byte read. It passes exactly when 1 byte can be written and 3 read. Then the code is MSB * 256 + LSB of the first two replies, the received checksum is the third, and the computed one is their CRC-8. The temperatures are left alone |
| Sensor.Si7013A20.ReadTemperature | main.cpp:95-99 | runs read-temperature command and two-byte read. It passes exactly when 1 byte can be written and 2 read. Then the code is MSB * 256 + LSB of the replies, and the humidity is left alone |
| Sensor.Si7013A20.ReadRHT | main.cpp:73-102 | completes the humidity script and then the temperature script, stopping at the first short transfer with that request's message. It passes exactly when 2 bytes can be written and 5 read, whatever the checksums. Then the reading is that of the five replies |
| Sensor.Si7013A20.SwitchHeaterBit | main.cpp:108-111 | sets or clears the heater bit of `rxBuffer[0]` in place, giving `SetHeaterEnable` of the old byte. The rest of the buffer is unchanged |
| Sensor.Si7013A20.PlaceHeaterCurrent | main.cpp:117-119 | clears the current field of `rxBuffer[0]` in place and ORs in a valid current, giving `SetHeaterCurrent` of the old byte. The rest of the buffer is unchanged |
| Sensor.Si7013A20.WriteRegister | main.cpp:112 | completes the one-frame register write. It passes exactly when 2 bytes can be written |
| Sensor.Si7013A20.ReadRegister | main.cpp:125-126 | completes a register read command and a one-byte read. It passes exactly when 1 byte can be written and 1 read. Then the register value is in `rxBuffer[0]` |
| Sensor.Si7013A20.UpdateHeaterEnable | main.cpp:105-113 | completes: read register 1, write back the value with the heater bit set or cleared. It passes exactly when 3 bytes can be written and 1 read. Then the written value is `SetHeaterEnable` of the byte read |
| Sensor.Si7013A20.UpdateHeaterCurrent | main.cpp:114-121 | completes: read register 3, write back the value with the new current field. It passes exactly when 3 bytes can be written and 1 read. Then the written value is `SetHeaterCurrent` of the byte read |
| Sensor.Si7013A20.HeaterControls | main.cpp:104-122 | completes the heater-enable update, "on" meaning on and anything else off, and then the heater-current update, stopping at the first short transfer. It passes exactly when 6 bytes can be written and 2 read |
| Sensor.Si7013A20.ReadFirmware | main.cpp:137-138 | completes the two-byte firmware command and a two-byte read. It passes exactly when 2 bytes can be written and 2 read |
| Sensor.Si7013A20.ReadDetail | main.cpp:124-140 | completes the three register reads and the firmware read, stopping at the first short transfer. It passes exactly when 5 bytes can be written and 5 read. Then the detail is registers 1 to 3 and the first firmware byte |
| Sensor.RHTFrames | main.cpp:74-97 | when the transaction can be served, the bus sees exactly `[0xE5]`, the 25000 us sleep, a 3-byte read, `[0xE0]`, a 2-byte read, with nothing in between |
| Sensor.HeaterFrames | main.cpp:106-120 | when the transaction can be served, the bus sees exactly `[0xE7]`, a 1-byte read r1, `[0xE6, SetHeaterEnable(r1)]`, `[0x11]`, a 1-byte read r3, `[0x51, SetHeaterCurrent(r3)]` |
| Sensor.DetailFrames | main.cpp:125-138 | when the transaction can be served, the bus sees exactly `[0xE7]`, `[0x10]` and `[0x11]`, each followed by a 1-byte read, then `[0x84, 0xB8]` and a 2-byte read |
| Sensor.RegisterFrames | main.cpp:125-126 | when it can be served, a register read is its command frame and a one-byte read |
| Sensor.UpdateFrames | main.cpp:106-112 | when it can be served, a register update is the read command, a one-byte read and the two-byte write frame |

## Left out

- Samples.Humidity, Samples.Celsius, Samples.Fahrenheit: these are the datasheet equations over exact reals. Only the humidity is computed in single-precision `float` (main.cpp:78). The temperatures are computed in `double`, because 175.72, 46.85 and 1.8 are `double` literals. Each is rounded to `float` only when it is stored into `tempCelsius` or `tempFahrenheit` (main.cpp:98-99). The Fahrenheit value starts from that already rounded Celsius value. None of this rounding is modelled.
- Opening `/dev/i2c-1` and selecting the slave address with `ioctl` (main.cpp:145-152) are not modelled. `Bus` stands for the already opened and addressed device. `Commands.SlaveAddress` only records the address.
- All console output (main.cpp:52, 61, 68, 90-93, 100-101, 113, 121, 127-139) is not modelled. The values printed are returned instead, as `Reading` and `Detail`.
- Command-line dispatch in `main` and the `atoi` of the current argument (main.cpp:143-181) are not modelled. `HeaterControls` takes the state string and the current directly. Its current defaults to 0, as in the source.
- `exit(EXIT_FAILURE)` becomes a returned failure carrying the message, and `exit(EXIT_SUCCESS)` is not modelled.
- `usleep(25000)` is recorded as a `Slept` event. Time itself is not modelled.
- Transport.Bus.Write, Transport.Bus.Read: a `write` or `read` that returns -1 is not modelled separately. The driver treats it like any other count that differs from the one asked for, and the model's short transfer covers that branch.
- Sensor.Si7013A20.TransmitByte, Sensor.Si7013A20.TransmitWord: the source takes `int` commands and stores them into `char`. The model takes bytes, which is what every call passes.
- The opcodes for writing user register 2 and for reading the electronic ID (main.cpp:5, 13-16) are defined but used nowhere. They are kept only as constants.
- The global file descriptor (main.cpp:31) is the `bus` field of the sensor object.

## Findings

| source | as written | input that shows it | evidently intended | confidence | as-written member | corrected member |
|---|---|---|---|---|---|---|
| main.cpp:80 | only `j` is initialised, so the CRC accumulator starts from whatever `calcCRC` held | any nonzero start value, e.g. 0x01 over bytes 0x00 0x00, gives a nonzero result where the CRC-8 is 0 | the accumulator starts at 0, as the sensor's CRC-8 defines | not executed | Checksum.UninitialisedAccumulatorCorrupts | Checksum.ComputeChecksum |
| main.cpp:77 | the receive buffer is plain `char`. Where `char` is signed, an LSB of 0x80 or more is sign-extended and ORed over the MSB. The temperature code at main.cpp:97 is built the same way, with the same defect. It depends on the platform: plain `char` is signed on x86 but unsigned on ARM Linux, where the defect does not arise | bytes 0x12 0x80 give code 0xFF80 instead of 0x1280 | the bytes combined as unsigned values, MSB * 256 + LSB | not executed | Samples.SignedCharCounterexample | Samples.RawCode |
