/** The Si7013-A20 humidity and temperature sensor driver: the command
    frames it sends, the replies it reads back, and what it makes of them. */
module Sensor {
  import opened Errors
  import opened Commands
  import opened Checksum
  import opened Registers
  import opened Samples
  import opened Transport

  /** What one humidity and temperature reading produces: the humidity code,
      the checksum the sensor sent with it and the one computed here, and
      the temperature code. */
  datatype Reading = Reading(rhCode: nat, rhChecksum: bv8, calcChecksum: bv8, tempCode: nat)

  /** User registers 1 to 3 and the firmware revision byte. */
  datatype Detail = Detail(reg1: bv8, reg2: bv8, reg3: bv8, firmware: bv8)

  /** The requests of a humidity measurement: the measure command, the
      conversion wait, then MSB, LSB and checksum. */
  const HumidityScript: seq<Request> := [Send([MeasureRH]), Pause(ConversionMicros), Fetch(3)]

  /** What a failure at each step of `HumidityScript` reports; a pause
      cannot fail. */
  const HumidityMessages: seq<string> :=
    ["Relative Humidity Measure Request\n", "", "Relative Humidity Read\n"]

  /** The requests of the temperature read that follows: the read command,
      then MSB and LSB. */
  const TemperatureScript: seq<Request> := [Send([ReadTemp]), Fetch(2)]

  const TemperatureMessages: seq<string> := ["Temperature Read Request", "Temperature Read"]

  /** The requests of a humidity and temperature reading, in order. */
  const RHTScript: seq<Request> := HumidityScript + TemperatureScript

  const RHTMessages: seq<string> := HumidityMessages + TemperatureMessages

  /** The reading the sensor's replies `p` stand for: humidity MSB, LSB and
      checksum, then temperature MSB and LSB. */
  function RHTReading(p: seq<bv8>): Reading
    requires |p| >= 5
  {
    Reading(RawCode(p[0], p[1]), p[2], Crc8([p[0], p[1]]), RawCode(p[3], p[4]))
  }

  /** The requests of reading one user register: its read command, then
      one byte. */
  function RegisterScript(cmd: bv8): seq<Request>
  {
    [Send([cmd]), Fetch(1)]
  }

  /** What a failure at each step of a register read reports. */
  function RegisterMessages(requestMessage: string, readMessage: string): seq<string>
  {
    [requestMessage, readMessage]
  }

  /** The request of writing `value` to a user register with write
      command `cmd`. */
  function WriteScript(cmd: bv8, value: bv8): seq<Request>
  {
    [Send([cmd, value])]
  }

  /** The requests of switching the heater: read user register 1, then
      write it back with the heater bit set or cleared, `reg1` being the
      value the read returns. */
  function HeaterEnableScript(on: bool, reg1: bv8): seq<Request>
  {
    RegisterScript(ReadReg1) + WriteScript(WriteReg1, SetHeaterEnable(reg1, on))
  }

  const HeaterEnableMessages: seq<string> :=
    RegisterMessages("User Register-1 Read Request (Heater Enable)", "User Register-1 Read (Heater Enable)")
    + ["Update Register-1 Write (Heater Enable)"]

  /** The requests of setting the heater current: read user register 3, then
      write it back with the new current field, `reg3` being the value the
      read returns. */
  function HeaterCurrentScript(current: int, reg3: bv8): seq<Request>
  {
    RegisterScript(ReadReg3) + WriteScript(WriteReg3, SetHeaterCurrent(reg3, current))
  }

  const HeaterCurrentMessages: seq<string> :=
    RegisterMessages("User Register-3 Read Request (Heater Current)", "User Register-3 Read (Heater Current)")
    + ["Update Register-3 Write (Heater Current)"]

  /** The `i`th reply byte, or 0 past the end (where the run has stopped
      anyway). */
  function ByteAt(p: seq<bv8>, i: nat): bv8
  {
    if i < |p| then p[i] else 0
  }

  /** The requests of a heater update, given the replies `p` the two
      register reads will return. */
  function HeaterScript(on: bool, current: int, p: seq<bv8>): seq<Request>
  {
    HeaterEnableScript(on, ByteAt(p, 0)) + HeaterCurrentScript(current, ByteAt(p, 1))
  }

  const HeaterMessages: seq<string> := HeaterEnableMessages + HeaterCurrentMessages

  /** The requests of reading the firmware revision: the two-byte command,
      then two bytes. */
  const FirmwareScript: seq<Request> := [Send([ReadFirmwareHigh, ReadFirmwareLow]), Fetch(2)]

  const FirmwareMessages: seq<string> := ["Firmware Revision Read Request", "Firmware Revision Read"]

  /** The requests of a detail read: user registers 1, 2 and 3, then the
      firmware revision. */
  const DetailScript: seq<Request> :=
    RegisterScript(ReadReg1) + (RegisterScript(ReadReg2) + (RegisterScript(ReadReg3) + FirmwareScript))

  const DetailMessages: seq<string> :=
    RegisterMessages("User Register-1 Read Request", "User Register-1 Read")
    + (RegisterMessages("User Register-2 Read Request", "User Register-2 Read")
       + (RegisterMessages("User Register-3 Read Request", "User Register-3 Read")
          + FirmwareMessages))

  /** The detail the sensor's replies `p` stand for: one byte per register,
      then the first of the two firmware bytes. */
  function DetailOf(p: seq<bv8>): Detail
    requires |p| >= 4
  {
    Detail(p[0], p[1], p[2], p[3])
  }

  /** On a link that takes two bytes and answers five, a humidity and
      temperature reading is exactly: the measure command, the conversion
      wait, a three-byte read (code MSB, LSB, checksum), the temperature
      read command and a two-byte read, with nothing in between. */
  lemma {:induction false} RHTFrames(link: Link)
    requires link.budget >= 2 && |link.pending| >= 5
    ensures var p := link.pending;
      Perform(link, RHTScript) ==
        Run([Wrote([0xE5], 1), Slept(25000), Got(3, p[..3]), Wrote([0xE0], 1), Got(2, p[3..5])],
            Link(link.budget - 2, p[5..]))
  {
    var p := link.pending;
    PerformThree(link, HumidityScript);
    var first := Perform(link, HumidityScript);
    assert first.after == Link(link.budget - 1, p[3..]);
    PerformTwo(first.after, TemperatureScript);
    assert p[3..][..2] == p[3..5] && p[3..][2..] == p[5..];
    PerformAppend(link, HumidityScript, TemperatureScript);
  }

  /** On a link that can serve it, a register read is its read command
      followed by a one-byte read. */
  lemma {:induction false} RegisterFrames(link: Link, cmd: bv8)
    requires link.budget >= 1 && |link.pending| >= 1
    ensures Perform(link, RegisterScript(cmd)) ==
      Run([Wrote([cmd], 1), Got(1, [link.pending[0]])], Link(link.budget - 1, link.pending[1..]))
  {
    PerformTwo(link, RegisterScript(cmd));
    assert link.pending[..1] == [link.pending[0]];
  }

  /** On a link that can serve it, a register read and write-back is the
      read command, a one-byte read, and the write command with the value
      made from the byte read. */
  lemma {:induction false} UpdateFrames(link: Link, readCmd: bv8, writeCmd: bv8, value: bv8)
    requires link.budget >= 3 && |link.pending| >= 1
    ensures Perform(link, RegisterScript(readCmd) + WriteScript(writeCmd, value)) ==
      Run([Wrote([readCmd], 1), Got(1, [link.pending[0]]), Wrote([writeCmd, value], 2)],
          Link(link.budget - 3, link.pending[1..]))
  {
    RegisterFrames(link, readCmd);
    var first := Perform(link, RegisterScript(readCmd));
    PerformOne(first.after, WriteScript(writeCmd, value));
    PerformAppend(link, RegisterScript(readCmd), WriteScript(writeCmd, value));
  }

  /** On a link that takes six bytes and answers two, a heater update is
      exactly: read register 1, write it back with the heater bit set for
      "on" and cleared otherwise, read register 3, write it back with the
      new current field, with nothing in between. */
  lemma {:induction false} HeaterFrames(link: Link, on: bool, current: int)
    requires link.budget >= 6 && |link.pending| >= 2
    ensures var p := link.pending;
      Perform(link, HeaterScript(on, current, p)) ==
        Run([Wrote([0xE7], 1), Got(1, [p[0]]), Wrote([0xE6, SetHeaterEnable(p[0], on)], 2),
             Wrote([0x11], 1), Got(1, [p[1]]), Wrote([0x51, SetHeaterCurrent(p[1], current)], 2)],
            Link(link.budget - 6, p[2..]))
  {
    var p := link.pending;
    UpdateFrames(link, ReadReg1, WriteReg1, SetHeaterEnable(p[0], on));
    var first := Perform(link, HeaterEnableScript(on, ByteAt(p, 0)));
    UpdateFrames(first.after, ReadReg3, WriteReg3, SetHeaterCurrent(p[1], current));
    assert p[1..][0] == p[1] && p[1..][1..] == p[2..];
    PerformAppend(link, HeaterEnableScript(on, ByteAt(p, 0)), HeaterCurrentScript(current, ByteAt(p, 1)));
  }

  /** A register read that goes through, in front of any script: its two
      events come first, and the rest runs from where it left the link. */
  lemma {:induction false} RegisterThen(link: Link, cmd: bv8, rest: seq<Request>)
    requires link.budget >= 1 && |link.pending| >= 1
    ensures Perform(link, RegisterScript(cmd) + rest) ==
      var r := Perform(Link(link.budget - 1, link.pending[1..]), rest);
      Run([Wrote([cmd], 1), Got(1, [link.pending[0]])] + r.events, r.after)
  {
    RegisterFrames(link, cmd);
    PerformAppend(link, RegisterScript(cmd), rest);
  }

  /** On a link that takes five bytes and answers five, a detail read is
      exactly: the read commands of user registers 1, 2 and 3, each
      followed by a one-byte read, then the firmware revision command and
      a two-byte read, with nothing in between. */
  lemma {:induction false} DetailFrames(link: Link)
    requires link.budget >= 5 && |link.pending| >= 5
    ensures var p := link.pending;
      Perform(link, DetailScript) ==
        Run([Wrote([0xE7], 1), Got(1, [p[0]]), Wrote([0x10], 1), Got(1, [p[1]]),
             Wrote([0x11], 1), Got(1, [p[2]]), Wrote([0x84, 0xB8], 2), Got(2, [p[3], p[4]])],
            Link(link.budget - 5, p[5..]))
  {
    var p := link.pending;
    var l1 := Link(link.budget - 1, p[1..]);
    var l2 := Link(link.budget - 2, p[2..]);
    var l3 := Link(link.budget - 3, p[3..]);
    assert p[1..][0] == p[1] && p[1..][1..] == p[2..];
    assert p[2..][0] == p[2] && p[2..][1..] == p[3..];
    assert p[3..][..2] == [p[3], p[4]] && p[3..][2..] == p[5..];
    PerformTwo(l3, FirmwareScript);
    var r3 := Perform(l3, FirmwareScript);
    RegisterThen(l2, ReadReg3, FirmwareScript);
    var r2 := Perform(l2, RegisterScript(ReadReg3) + FirmwareScript);
    RegisterThen(l1, ReadReg2, RegisterScript(ReadReg3) + FirmwareScript);
    var r1 := Perform(l1, RegisterScript(ReadReg2) + (RegisterScript(ReadReg3) + FirmwareScript));
    RegisterThen(link, ReadReg1, RegisterScript(ReadReg2) + (RegisterScript(ReadReg3) + FirmwareScript));
  }

  class Si7013A20 {
    const txBuffer: array<bv8>
    const rxBuffer: array<bv8>
    const bus: Bus
    var relativeHumidity: real
    var tempCelsius: real
    var tempFahrenheit: real

    ghost predicate Valid()
      reads this
    {
      txBuffer.Length == 2 && rxBuffer.Length == 3 && txBuffer != rxBuffer
    }

    constructor(bus: Bus)
      ensures Valid() && this.bus == bus
      ensures fresh(txBuffer) && fresh(rxBuffer)
    {
      this.bus := bus;
      txBuffer := new bv8[2];
      rxBuffer := new bv8[3];
    }

    /** Send the one-byte frame `cmd`; a write that does not take the byte
        is a failure reported with `message`. */
    method TransmitByte(cmd: bv8, message: string) returns (o: Outcome)
      requires Valid()
      modifies txBuffer, bus
      ensures txBuffer[0] == cmd && txBuffer[1] == old(txBuffer[1])
      ensures var st := Transfer(old(bus.State()), Send([cmd]));
        && bus.log == old(bus.log) + [st.event]
        && bus.State() == st.after
        && o == (if Short(st.event) then Fail(TransportError(message)) else Pass)
    {
      txBuffer[0] := cmd;
      assert txBuffer[..1] == [cmd];
      var written := bus.Write(txBuffer[..1]);
      if written != 1 {
        return Fail(TransportError(message));
      }
      return Pass;
    }

    /** Send the two-byte frame `cmdHigh, cmdLow`; a write that does not
        take both bytes is a failure reported with `message`. */
    method TransmitWord(cmdHigh: bv8, cmdLow: bv8, message: string) returns (o: Outcome)
      requires Valid()
      modifies txBuffer, bus
      ensures txBuffer[..] == [cmdHigh, cmdLow]
      ensures var st := Transfer(old(bus.State()), Send([cmdHigh, cmdLow]));
        && bus.log == old(bus.log) + [st.event]
        && bus.State() == st.after
        && o == (if Short(st.event) then Fail(TransportError(message)) else Pass)
    {
      txBuffer[0] := cmdHigh;
      txBuffer[1] := cmdLow;
      assert txBuffer[..2] == [cmdHigh, cmdLow];
      var written := bus.Write(txBuffer[..2]);
      if written != 2 {
        return Fail(TransportError(message));
      }
      return Pass;
    }

    /** Read `count` bytes into the front of `rxBuffer`; fewer bytes than
        asked for is a failure reported with `message`. Whatever did arrive
        is in the buffer either way. */
    method ReceiveData(count: nat, message: string) returns (o: Outcome)
      requires Valid() && count <= rxBuffer.Length
      modifies rxBuffer, bus
      ensures var st := Transfer(old(bus.State()), Fetch(count));
        && bus.log == old(bus.log) + [st.event]
        && bus.State() == st.after
        && (forall i :: 0 <= i < |st.event.bytes| ==> rxBuffer[i] == st.event.bytes[i])
        && (forall i :: |st.event.bytes| <= i < rxBuffer.Length ==> rxBuffer[i] == old(rxBuffer[i]))
        && o == (if Short(st.event) then Fail(TransportError(message)) else Pass)
    {
      var bytes := bus.Read(count);
      var i := 0;
      while i < |bytes|
        invariant 0 <= i <= |bytes| <= rxBuffer.Length
        invariant forall k :: 0 <= k < i ==> rxBuffer[k] == bytes[k]
        invariant forall k :: i <= k < rxBuffer.Length ==> rxBuffer[k] == old(rxBuffer[k])
        modifies rxBuffer
      {
        rxBuffer[i] := bytes[i];
        i := i + 1;
      }
      if |bytes| != count {
        return Fail(TransportError(message));
      }
      return Pass;
    }

    /** Request a humidity measurement, wait for the conversion and read
        the code and its checksum: the requests of `HumidityScript`. The
        checksum is computed over the two code bytes. */
    method MeasureHumidity() returns (o: Outcome, rhCode: nat, rhChecksum: bv8, calcCRC: bv8)
      requires Valid()
      modifies this, txBuffer, rxBuffer, bus
      ensures Completed(old(bus.State()), old(bus.log), HumidityScript, HumidityMessages, bus.log, bus.State(), o)
      ensures o.Pass? <==> old(bus.budget) >= 1 && |old(bus.pending)| >= 3
      ensures o.Pass? ==>
        && |old(bus.pending)| >= 3
        && bus.State() == Link(old(bus.budget) - 1, old(bus.pending)[3..])
        && rhCode == RawCode(old(bus.pending)[0], old(bus.pending)[1])
        && rhChecksum == old(bus.pending)[2]
        && calcCRC == Crc8([old(bus.pending)[0], old(bus.pending)[1]])
        && relativeHumidity == Humidity(rhCode)
      ensures tempCelsius == old(tempCelsius) && tempFahrenheit == old(tempFahrenheit)
    {
      ghost var s0 := bus.State();
      rhCode, rhChecksum, calcCRC := 0, 0, 0;
      o := TransmitByte(MeasureRH, "Relative Humidity Measure Request\n");
      if o.Fail? {
        PerformCutShort(s0, HumidityScript);
        return;
      }
      bus.Sleep(ConversionMicros);
      o := ReceiveData(3, "Relative Humidity Read\n");
      PerformThree(s0, HumidityScript);
      if o.Fail? {
        return;
      }
      assert [rxBuffer[0], rxBuffer[1]] == [s0.pending[0], s0.pending[1]];
      rhCode := RawCode(rxBuffer[0], rxBuffer[1]);
      relativeHumidity := Humidity(rhCode);
      calcCRC := ComputeChecksum(rxBuffer[0], rxBuffer[1]);
      rhChecksum := rxBuffer[2];
    }

    /** Read the temperature taken with the last humidity measurement: the
        requests of `TemperatureScript`. */
    method ReadTemperature() returns (o: Outcome, tempCode: nat)
      requires Valid()
      modifies this, txBuffer, rxBuffer, bus
      ensures Completed(old(bus.State()), old(bus.log), TemperatureScript, TemperatureMessages, bus.log, bus.State(), o)
      ensures o.Pass? <==> old(bus.budget) >= 1 && |old(bus.pending)| >= 2
      ensures o.Pass? ==>
        && |old(bus.pending)| >= 2
        && bus.State() == Link(old(bus.budget) - 1, old(bus.pending)[2..])
        && tempCode == RawCode(old(bus.pending)[0], old(bus.pending)[1])
        && tempCelsius == Celsius(tempCode)
        && tempFahrenheit == Fahrenheit(tempCelsius)
      ensures relativeHumidity == old(relativeHumidity)
    {
      ghost var s0 := bus.State();
      tempCode := 0;
      o := TransmitByte(ReadTemp, "Temperature Read Request");
      if o.Fail? {
        PerformCutShort(s0, TemperatureScript);
        return;
      }
      o := ReceiveData(2, "Temperature Read");
      PerformTwo(s0, TemperatureScript);
      if o.Fail? {
        return;
      }
      tempCode := RawCode(rxBuffer[0], rxBuffer[1]);
      tempCelsius := Celsius(tempCode);
      tempFahrenheit := Fahrenheit(tempCelsius);
    }

    /** Measure relative humidity, then read the temperature taken with it:
        the requests of `RHTScript`, stopping at the first short transfer.
        A checksum mismatch is reported, not treated as a failure. */
    method ReadRHT() returns (r: Result<Reading>)
      requires Valid()
      modifies this, txBuffer, rxBuffer, bus
      ensures Completed(old(bus.State()), old(bus.log), RHTScript, RHTMessages, bus.log, bus.State(), Status(r))
      ensures r.Ok? <==> old(bus.budget) >= 2 && |old(bus.pending)| >= 5
      ensures r.Ok? ==>
        && |old(bus.pending)| >= 5
        && r.value == RHTReading(old(bus.pending))
        && relativeHumidity == Humidity(r.value.rhCode)
        && tempCelsius == Celsius(r.value.tempCode)
        && tempFahrenheit == Fahrenheit(tempCelsius)
    {
      ghost var s0, log0 := bus.State(), bus.log;
      var o, rhCode, rhChecksum, calcCRC := MeasureHumidity();
      if o.Fail? {
        CompletedFail(s0, log0, HumidityScript, TemperatureScript, HumidityMessages, TemperatureMessages,
                      bus.log, bus.State(), o.failure);
        return Err(o.failure);
      }
      ghost var s1, log1 := bus.State(), bus.log;
      var tempCode;
      o, tempCode := ReadTemperature();
      CompletedThen(s0, log0, HumidityScript, TemperatureScript, HumidityMessages, TemperatureMessages,
                    log1, s1, bus.log, bus.State(), o);
      if o.Fail? {
        return Err(o.failure);
      }
      return Ok(Reading(rhCode, rhChecksum, calcCRC, tempCode));
    }

    /** Set or clear the heater bit of the register value in `rxBuffer[0]`,
        in place. */
    method SwitchHeaterBit(on: bool)
      requires Valid()
      modifies rxBuffer
      ensures rxBuffer[0] == SetHeaterEnable(old(rxBuffer[0]), on)
      ensures rxBuffer[1] == old(rxBuffer[1]) && rxBuffer[2] == old(rxBuffer[2])
    {
      if on {
        rxBuffer[0] := rxBuffer[0] | HeaterEnableMask;
      } else {
        rxBuffer[0] := rxBuffer[0] & !HeaterEnableMask;
      }
    }

    /** Clear the current field of the register value in `rxBuffer[0]` and
        put `current` there when it is a valid level, in place. */
    method PlaceHeaterCurrent(current: int)
      requires Valid()
      modifies rxBuffer
      ensures rxBuffer[0] == SetHeaterCurrent(old(rxBuffer[0]), current)
      ensures rxBuffer[1] == old(rxBuffer[1]) && rxBuffer[2] == old(rxBuffer[2])
    {
      rxBuffer[0] := rxBuffer[0] & 0xF0;
      if 0 <= current <= MaxHeaterCurrent {
        rxBuffer[0] := rxBuffer[0] | current as bv8;
      }
    }

    /** Write `value` to a user register: the two-byte frame of its write
        command `cmd` and the value. */
    method WriteRegister(cmd: bv8, value: bv8, message: string) returns (o: Outcome)
      requires Valid()
      modifies txBuffer, bus
      ensures Completed(old(bus.State()), old(bus.log), WriteScript(cmd, value), [message], bus.log, bus.State(), o)
      ensures o.Pass? <==> old(bus.budget) >= 2
      ensures o.Pass? ==> bus.State() == Link(old(bus.budget) - 2, old(bus.pending))
    {
      ghost var s0 := bus.State();
      o := TransmitWord(cmd, value, message);
      PerformOne(s0, WriteScript(cmd, value));
    }

    /** Switch the heater on or off: read user register 1, set or clear
        its heater bit in place, and write it back. */
    method UpdateHeaterEnable(on: bool) returns (o: Outcome)
      requires Valid()
      modifies txBuffer, rxBuffer, bus
      ensures Completed(old(bus.State()), old(bus.log), HeaterEnableScript(on, ByteAt(old(bus.pending), 0)),
                        HeaterEnableMessages, bus.log, bus.State(), o)
      ensures o.Pass? <==> old(bus.budget) >= 3 && |old(bus.pending)| >= 1
      ensures o.Pass? ==>
        && |old(bus.pending)| >= 1
        && bus.State() == Link(old(bus.budget) - 3, old(bus.pending)[1..])
        && rxBuffer[0] == SetHeaterEnable(old(bus.pending)[0], on)
    {
      ghost var s0, log0 := bus.State(), bus.log;
      ghost var read := RegisterScript(ReadReg1);
      ghost var readMessages := RegisterMessages("User Register-1 Read Request (Heater Enable)",
                                                 "User Register-1 Read (Heater Enable)");
      o := ReadRegister(ReadReg1, "User Register-1 Read Request (Heater Enable)",
                        "User Register-1 Read (Heater Enable)");
      if o.Fail? {
        CompletedFail(s0, log0, read, WriteScript(WriteReg1, SetHeaterEnable(ByteAt(s0.pending, 0), on)),
                      readMessages, ["Update Register-1 Write (Heater Enable)"], bus.log, bus.State(), o.failure);
        return;
      }
      ghost var s1, log1 := bus.State(), bus.log;
      SwitchHeaterBit(on);
      o := WriteRegister(WriteReg1, rxBuffer[0], "Update Register-1 Write (Heater Enable)");
      CompletedThen(s0, log0, read, WriteScript(WriteReg1, SetHeaterEnable(ByteAt(s0.pending, 0), on)),
                    readMessages, ["Update Register-1 Write (Heater Enable)"], log1, s1, bus.log, bus.State(), o);
    }

    /** Set the heater current: read user register 3, clear its current
        field in place and put `current` there when it is a valid level, and
        write the register back either way. */
    method UpdateHeaterCurrent(current: int) returns (o: Outcome)
      requires Valid()
      modifies txBuffer, rxBuffer, bus
      ensures Completed(old(bus.State()), old(bus.log), HeaterCurrentScript(current, ByteAt(old(bus.pending), 0)),
                        HeaterCurrentMessages, bus.log, bus.State(), o)
      ensures o.Pass? <==> old(bus.budget) >= 3 && |old(bus.pending)| >= 1
      ensures o.Pass? ==>
        && |old(bus.pending)| >= 1
        && bus.State() == Link(old(bus.budget) - 3, old(bus.pending)[1..])
        && rxBuffer[0] == SetHeaterCurrent(old(bus.pending)[0], current)
    {
      ghost var s0, log0 := bus.State(), bus.log;
      ghost var read := RegisterScript(ReadReg3);
      ghost var readMessages := RegisterMessages("User Register-3 Read Request (Heater Current)",
                                                 "User Register-3 Read (Heater Current)");
      o := ReadRegister(ReadReg3, "User Register-3 Read Request (Heater Current)",
                        "User Register-3 Read (Heater Current)");
      if o.Fail? {
        CompletedFail(s0, log0, read, WriteScript(WriteReg3, SetHeaterCurrent(ByteAt(s0.pending, 0), current)),
                      readMessages, ["Update Register-3 Write (Heater Current)"], bus.log, bus.State(), o.failure);
        return;
      }
      ghost var s1, log1 := bus.State(), bus.log;
      PlaceHeaterCurrent(current);
      o := WriteRegister(WriteReg3, rxBuffer[0], "Update Register-3 Write (Heater Current)");
      CompletedThen(s0, log0, read, WriteScript(WriteReg3, SetHeaterCurrent(ByteAt(s0.pending, 0), current)),
                    readMessages, ["Update Register-3 Write (Heater Current)"], log1, s1, bus.log, bus.State(), o);
    }

    /** Switch the heater on when `state` is "on" and off otherwise, then
        set its current: the requests of `HeaterScript`, stopping at the
        first short transfer. */
    method HeaterControls(state: string, current: int := 0) returns (o: Outcome)
      requires Valid()
      modifies txBuffer, rxBuffer, bus
      ensures Completed(old(bus.State()), old(bus.log), HeaterScript(state == "on", current, old(bus.pending)),
                        HeaterMessages, bus.log, bus.State(), o)
      ensures o.Pass? <==> old(bus.budget) >= 6 && |old(bus.pending)| >= 2
      ensures o.Pass? ==>
        && |old(bus.pending)| >= 2
        && rxBuffer[0] == SetHeaterCurrent(old(bus.pending)[1], current)
    {
      ghost var s0, log0 := bus.State(), bus.log;
      var on := state == "on";
      ghost var first := HeaterEnableScript(on, ByteAt(s0.pending, 0));
      ghost var second := HeaterCurrentScript(current, ByteAt(s0.pending, 1));
      o := UpdateHeaterEnable(on);
      if o.Fail? {
        CompletedFail(s0, log0, first, second, HeaterEnableMessages, HeaterCurrentMessages,
                      bus.log, bus.State(), o.failure);
        return;
      }
      ghost var s1, log1 := bus.State(), bus.log;
      assert ByteAt(s1.pending, 0) == ByteAt(s0.pending, 1);
      o := UpdateHeaterCurrent(current);
      CompletedThen(s0, log0, first, second, HeaterEnableMessages, HeaterCurrentMessages,
                    log1, s1, bus.log, bus.State(), o);
    }

    /** Read one user register: send its read command `cmd`, then read one
        byte into `rxBuffer[0]`. */
    method ReadRegister(cmd: bv8, requestMessage: string, readMessage: string) returns (o: Outcome)
      requires Valid()
      modifies txBuffer, rxBuffer, bus
      ensures Completed(old(bus.State()), old(bus.log), RegisterScript(cmd),
                        RegisterMessages(requestMessage, readMessage), bus.log, bus.State(), o)
      ensures o.Pass? <==> old(bus.budget) >= 1 && |old(bus.pending)| >= 1
      ensures o.Pass? ==>
        && |old(bus.pending)| >= 1
        && bus.State() == Link(old(bus.budget) - 1, old(bus.pending)[1..])
        && rxBuffer[0] == old(bus.pending)[0]
    {
      ghost var s0 := bus.State();
      o := TransmitByte(cmd, requestMessage);
      if o.Fail? {
        PerformCutShort(s0, RegisterScript(cmd));
        return;
      }
      o := ReceiveData(1, readMessage);
      PerformTwo(s0, RegisterScript(cmd));
    }

    /** Read the firmware revision: send the two-byte command, then read
        two bytes into `rxBuffer`. */
    method ReadFirmware() returns (o: Outcome)
      requires Valid()
      modifies txBuffer, rxBuffer, bus
      ensures Completed(old(bus.State()), old(bus.log), FirmwareScript, FirmwareMessages, bus.log, bus.State(), o)
      ensures o.Pass? <==> old(bus.budget) >= 2 && |old(bus.pending)| >= 2
      ensures o.Pass? ==>
        && |old(bus.pending)| >= 2
        && bus.State() == Link(old(bus.budget) - 2, old(bus.pending)[2..])
        && rxBuffer[0] == old(bus.pending)[0] && rxBuffer[1] == old(bus.pending)[1]
    {
      ghost var s0 := bus.State();
      o := TransmitWord(ReadFirmwareHigh, ReadFirmwareLow, "Firmware Revision Read Request");
      if o.Fail? {
        PerformCutShort(s0, FirmwareScript);
        return;
      }
      o := ReceiveData(2, "Firmware Revision Read");
      PerformTwo(s0, FirmwareScript);
    }

    /** Read user registers 1, 2 and 3 and the firmware revision: the
        requests of `DetailScript`, stopping at the first short transfer.
        The revision is the first of the two firmware bytes. */
    method ReadDetail() returns (r: Result<Detail>)
      requires Valid()
      modifies txBuffer, rxBuffer, bus
      ensures Completed(old(bus.State()), old(bus.log), DetailScript, DetailMessages, bus.log, bus.State(), Status(r))
      ensures r.Ok? <==> old(bus.budget) >= 5 && |old(bus.pending)| >= 5
      ensures r.Ok? ==> |old(bus.pending)| >= 5 && r.value == DetailOf(old(bus.pending))
    {
      ghost var m1 := RegisterMessages("User Register-1 Read Request", "User Register-1 Read");
      ghost var m2 := RegisterMessages("User Register-2 Read Request", "User Register-2 Read");
      ghost var m3 := RegisterMessages("User Register-3 Read Request", "User Register-3 Read");
      ghost var q1, q2, q3 := RegisterScript(ReadReg1), RegisterScript(ReadReg2), RegisterScript(ReadReg3);
      ghost var s0, log0 := bus.State(), bus.log;
      var o := ReadRegister(ReadReg1, "User Register-1 Read Request", "User Register-1 Read");
      if o.Fail? {
        CompletedFail(s0, log0, q1, q2 + (q3 + FirmwareScript), m1, m2 + (m3 + FirmwareMessages),
                      bus.log, bus.State(), o.failure);
        return Err(o.failure);
      }
      var reg1 := rxBuffer[0];
      ghost var s1, log1 := bus.State(), bus.log;
      o := ReadRegister(ReadReg2, "User Register-2 Read Request", "User Register-2 Read");
      if o.Fail? {
        CompletedFail(s1, log1, q2, q3 + FirmwareScript, m2, m3 + FirmwareMessages,
                      bus.log, bus.State(), o.failure);
        CompletedThen(s0, log0, q1, q2 + (q3 + FirmwareScript), m1, m2 + (m3 + FirmwareMessages),
                      log1, s1, bus.log, bus.State(), o);
        return Err(o.failure);
      }
      var reg2 := rxBuffer[0];
      assert reg2 == s0.pending[1];
      ghost var s2, log2 := bus.State(), bus.log;
      o := ReadRegister(ReadReg3, "User Register-3 Read Request", "User Register-3 Read");
      if o.Fail? {
        CompletedFail(s2, log2, q3, FirmwareScript, m3, FirmwareMessages, bus.log, bus.State(), o.failure);
        CompletedThen(s1, log1, q2, q3 + FirmwareScript, m2, m3 + FirmwareMessages,
                      log2, s2, bus.log, bus.State(), o);
        CompletedThen(s0, log0, q1, q2 + (q3 + FirmwareScript), m1, m2 + (m3 + FirmwareMessages),
                      log1, s1, bus.log, bus.State(), o);
        return Err(o.failure);
      }
      var reg3 := rxBuffer[0];
      assert reg3 == s0.pending[2];
      ghost var s3, log3 := bus.State(), bus.log;
      o := ReadFirmware();
      CompletedThen(s2, log2, q3, FirmwareScript, m3, FirmwareMessages, log3, s3, bus.log, bus.State(), o);
      CompletedThen(s1, log1, q2, q3 + FirmwareScript, m2, m3 + FirmwareMessages,
                    log2, s2, bus.log, bus.State(), o);
      CompletedThen(s0, log0, q1, q2 + (q3 + FirmwareScript), m1, m2 + (m3 + FirmwareMessages),
                    log1, s1, bus.log, bus.State(), o);
      if o.Fail? {
        return Err(o.failure);
      }
      return Ok(Detail(reg1, reg2, reg3, rxBuffer[0]));
    }
  }
}
