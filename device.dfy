/** The PCA9685 on its I2C bus, and the operations of
    src/test_pca9685.c that talk to it: `i2c_error_handler`,
    `scan_for_device`, `configure_device`, `set_pwm_duty_cycle`,
    `set_frequency` and `main`.

    The I2C library is not part of this model.  Its four calls become
    methods on the bus object: each takes its status from an oracle (the
    sequence `pending` of statuses still to come, success 0 once it has run
    out), does its work only when that status is not negative, and records
    itself in a ghost trace.  Rebooting (a GPIO power cycle) is recorded the
    same way; it does not reset the register file.

    Each operation of the program is specified by a step function on the
    bus state: the value it returns and the state it leaves. */
module Device {
  import opened Registers
  import opened RegisterConfig
  import opened Pwm
  import opened Prescale
  import opened ErrorHandler
  import opened Mode1Sequence

  /** One thing that happened on the bus, with the status a transport call
      returned. */
  datatype Event =
    | ConfigBus(status: int)
    | ScanBus(status: int)
    | ReadReg(reg: int, status: int)
    | WriteRegs(reg: int, bytes: seq<bv8>, status: int)
    | Reboot

  /** The status the next transport call returns, for the statuses
      `pending` still to come: the first of them, or success once they
      have run out. */
  function NextStatus(pending: seq<int>): int {
    if pending == [] then 0 else pending[0]
  }

  /** The statuses still to come after one more call. */
  function Later(pending: seq<int>): seq<int> {
    if pending == [] then [] else pending[1..]
  }

  /** What `i2c_error_handler(errno)` adds to the trace. */
  function HandlerEvents(codes: ErrorCodes, errno: int): seq<Event> {
    if RequestsReboot(codes, errno) then [Reboot] else []
  }

  /** What a failing call's error handling adds to the trace: nothing on
      success, the handler's events on failure. */
  function OnFailure(codes: ErrorCodes, status: int): seq<Event> {
    if status < 0 then HandlerEvents(codes, status) else []
  }

  /** The register file after `bytes` are stored from address `reg` on. */
  function Stored(regs: seq<bv8>, reg: int, bytes: seq<bv8>): (r: seq<bv8>)
    requires 0 <= reg && reg + |bytes| <= |regs|
    ensures |r| == |regs|
    ensures forall i :: 0 <= i < |regs| ==>
      r[i] == if reg <= i < reg + |bytes| then bytes[i - reg] else regs[i]
  {
    regs[..reg] + bytes + regs[reg + |bytes|..]
  }

  /** The value returned by a step whose last transport call returned
      `status`: the error, or 0. */
  function StepResult(status: int): int {
    if status < 0 then status else 0
  }

  /** What the bus holds between calls: the register file, the statuses
      still to come and the trace so far. */
  datatype BusState = BusState(regs: seq<bv8>, pending: seq<int>, trace: seq<Event>)

  /** The value an operation returns and the state it leaves. */
  datatype Step = Step(ret: int, after: BusState)

  /** `config_i2c` as main calls it: the transport's status is returned. */
  function ConfigStep(s: BusState): (r: Step)
    ensures r.after.regs == s.regs && r.after.pending == Later(s.pending)
  {
    var status := NextStatus(s.pending);
    Step(status, BusState(s.regs, Later(s.pending), s.trace + [ConfigBus(status)]))
  }

  /** `scan_for_device`: 0 when the address book lists the device
      (`present`), -1 otherwise; a failing scan goes to the handler. */
  function ScanStep(s: BusState, codes: ErrorCodes, present: bool): (r: Step)
    ensures r.ret == 0 <==> present
    ensures r.ret == -1 <==> !present
    ensures r.after.regs == s.regs && r.after.pending == Later(s.pending)
  {
    var status := NextStatus(s.pending);
    Step(if present then 0 else -1,
         BusState(s.regs, Later(s.pending), s.trace + [ScanBus(status)] + OnFailure(codes, status)))
  }

  /** One `write_i2c` of `bytes` from `reg` on, with its error handling:
      the status when it is negative, 0 otherwise. */
  function WriteStep(s: BusState, codes: ErrorCodes, reg: int, bytes: seq<bv8>): (r: Step)
    requires 0 <= reg && reg + |bytes| <= |s.regs|
    ensures r.ret <= 0 && (r.ret == 0 <==> NextStatus(s.pending) >= 0)
    ensures NextStatus(s.pending) < 0 ==> r.ret == NextStatus(s.pending)
    ensures |r.after.regs| == |s.regs| && r.after.pending == Later(s.pending)
  {
    var status := NextStatus(s.pending);
    Step(StepResult(status),
         BusState(if status >= 0 then Stored(s.regs, reg, bytes) else s.regs,
                  Later(s.pending),
                  s.trace + [WriteRegs(reg, bytes, status)] + OnFailure(codes, status)))
  }

  /** `configure_device`: a read of `reg`, and when it succeeds a write of
      the byte the settings `cs` make of the value read. */
  function ConfigureStep(s: BusState, codes: ErrorCodes, reg: int, cs: seq<Setting>): (r: Step)
    requires 0 <= reg < |s.regs|
    ensures r.ret <= 0
    ensures r.ret == 0 <==> NextStatus(s.pending) >= 0 && NextStatus(Later(s.pending)) >= 0
    ensures NextStatus(s.pending) < 0 ==> r.ret == NextStatus(s.pending)
    ensures NextStatus(s.pending) >= 0 && NextStatus(Later(s.pending)) < 0 ==> r.ret == NextStatus(Later(s.pending))
    ensures |r.after.regs| == |s.regs|
  {
    var read := NextStatus(s.pending);
    if read < 0 then
      Step(read, BusState(s.regs, Later(s.pending), s.trace + [ReadReg(reg, read)] + HandlerEvents(codes, read)))
    else
      WriteStep(BusState(s.regs, Later(s.pending), s.trace + [ReadReg(reg, read)]),
                codes, reg, [Configured(s.regs[reg], cs)])
  }

  /** `configure_device` reads `reg` once and writes at most one byte, to
      `reg`: a failing read returns its code, goes to the handler and
      writes nothing; a failing write returns its code and goes to the
      handler; success returns 0 with `reg` configured and every other
      register as it was. */
  lemma ConfigureStepFrame(s: BusState, codes: ErrorCodes, reg: int, cs: seq<Setting>)
    requires 0 <= reg < |s.regs|
    ensures var r := ConfigureStep(s, codes, reg, cs);
      var read, write := NextStatus(s.pending), NextStatus(Later(s.pending));
      var b := Configured(s.regs[reg], cs);
      (read < 0 ==> r.ret == read && r.after.regs == s.regs &&
                    r.after.trace == s.trace + [ReadReg(reg, read)] + HandlerEvents(codes, read)) &&
      (read >= 0 ==> r.ret == StepResult(write) &&
                     r.after.trace == s.trace + [ReadReg(reg, read), WriteRegs(reg, [b], write)] + OnFailure(codes, write)) &&
      (read >= 0 && write < 0 ==> r.after.regs == s.regs) &&
      (r.ret == 0 ==> r.after.regs[reg] == b &&
                      forall i :: 0 <= i < |s.regs| && i != reg ==> r.after.regs[i] == s.regs[i])
  {
    var read := NextStatus(s.pending);
    if read >= 0 {
      assert s.trace + [ReadReg(reg, read)] + [WriteRegs(reg, [Configured(s.regs[reg], cs)], NextStatus(Later(s.pending)))] ==
        s.trace + [ReadReg(reg, read), WriteRegs(reg, [Configured(s.regs[reg], cs)], NextStatus(Later(s.pending)))];
    }
  }

  /** main's address of the PCA9685 (:277), its LED channel, duty cycle and
      frequency (:285-287). */
  const DeviceAddr: int := 0x70
  const TestLed: int := 15
  const TestDutyCycle: int := 2048
  const TestFrequency: int := 1526

  class Pca9685Bus {
    /** The device's 256 register slots. */
    var regs: seq<bv8>
    /** What `scan_bus_i2c` reports for each 7-bit address. */
    const addressBook: seq<int>
    /** The statuses the transport's remaining calls return, in order. */
    var pending: seq<int>
    ghost var trace: seq<Event>
    /** The I2C library's error macros. */
    const codes: ErrorCodes

    ghost predicate Valid()
      reads this
    {
      |regs| == 256 && |addressBook| == 127 && ValidCodes(codes)
    }

    constructor (regs0: seq<bv8>, book: seq<int>, pending0: seq<int>, codes0: ErrorCodes)
      requires |regs0| == 256 && |book| == 127 && ValidCodes(codes0)
      ensures Valid()
      ensures regs == regs0 && addressBook == book && pending == pending0 && codes == codes0
      ensures trace == []
    {
      regs, addressBook, pending, codes := regs0, book, pending0, codes0;
      trace := [];
    }

    // -----------------------------------------------------------------
    // The transport, from the I2C library

    /** `config_i2c`. */
    method ConfigI2c() returns (ret: int)
      requires Valid()
      modifies this
      ensures Valid()
      ensures ret == NextStatus(old(pending)) && pending == Later(old(pending))
      ensures trace == old(trace) + [ConfigBus(ret)]
      ensures regs == old(regs)
    {
      ret := NextStatus(pending);
      pending := Later(pending);
      trace := trace + [ConfigBus(ret)];
    }

    /** `scan_bus_i2c`, which fills the caller's address book. */
    method ScanBusI2c() returns (ret: int, book: seq<int>)
      requires Valid()
      modifies this
      ensures Valid()
      ensures ret == NextStatus(old(pending)) && pending == Later(old(pending))
      ensures book == addressBook
      ensures trace == old(trace) + [ScanBus(ret)]
      ensures regs == old(regs)
    {
      ret := NextStatus(pending);
      pending := Later(pending);
      book := addressBook;
      trace := trace + [ScanBus(ret)];
    }

    /** `read_i2c` of one register; the buffer keeps its 0 on failure. */
    method ReadI2c(reg: int) returns (ret: int, value: Word)
      requires Valid() && 0 <= reg < 256
      modifies this
      ensures Valid()
      ensures ret == NextStatus(old(pending)) && pending == Later(old(pending))
      ensures value == if ret >= 0 then regs[reg] as Word else 0
      ensures trace == old(trace) + [ReadReg(reg, ret)]
      ensures regs == old(regs)
    {
      ret := NextStatus(pending);
      pending := Later(pending);
      value := if ret >= 0 then regs[reg] as Word else 0;
      trace := trace + [ReadReg(reg, ret)];
    }

    /** `write_i2c` of `|bytes|` consecutive registers from `reg` on; the
        bytes are the low bytes of the caller's `int` buffer. */
    method WriteI2c(reg: int, bytes: seq<bv8>) returns (ret: int)
      requires Valid() && 0 <= reg && reg + |bytes| <= 256
      modifies this
      ensures Valid()
      ensures ret == NextStatus(old(pending)) && pending == Later(old(pending))
      ensures regs == if ret >= 0 then Stored(old(regs), reg, bytes) else old(regs)
      ensures trace == old(trace) + [WriteRegs(reg, bytes, ret)]
    {
      ret := NextStatus(pending);
      pending := Later(pending);
      if ret >= 0 {
        regs := Stored(regs, reg, bytes);
      }
      trace := trace + [WriteRegs(reg, bytes, ret)];
    }

    /** `reboot_device` (:44-53): a power cycle through a GPIO pin. */
    method RebootDevice()
      requires Valid()
      modifies this
      ensures Valid()
      ensures trace == old(trace) + [Reboot]
      ensures regs == old(regs) && pending == old(pending)
    {
      trace := trace + [Reboot];
    }

    // -----------------------------------------------------------------
    // The program

    /** `i2c_error_handler` (:55-109): reboots for the nine listed codes,
        ignores any other, and always returns 0. */
    method I2cErrorHandler(errno: int) returns (r: int)
      requires Valid()
      modifies this
      ensures Valid()
      ensures r == 0
      ensures trace == old(trace) + HandlerEvents(codes, errno)
      ensures regs == old(regs) && pending == old(pending)
    {
      if RequestsReboot(codes, errno) {
        RebootDevice();
      }
      r := 0;
    }

    /** `scan_for_device` (:111-131): a failing scan goes to the handler but
        does not stop the check of the address book. */
    method ScanForDevice(deviceAddr: int) returns (ret: int)
      requires Valid() && 0 <= deviceAddr < 127
      modifies this
      ensures Valid()
      ensures Step(ret, BusState(regs, pending, trace)) ==
        ScanStep(BusState(old(regs), old(pending), old(trace)), codes, addressBook[deviceAddr] == 1)
    {
      var book;
      ret, book := ScanBusI2c();
      if ret < 0 {
        var _ := I2cErrorHandler(ret);
      }
      if book[deviceAddr] != 1 {
        return -1;
      }
      return 0;
    }

    /** `configure_device` (:134-170): one read of `reg`, the settings
        folded over the value in order, one write of its low byte back to
        `reg`; a failing read skips the write. */
    method ConfigureDevice(reg: int, configs: seq<Setting>, numConfigs: int) returns (ret: int)
      requires Valid() && 0 <= reg < 256 && 0 <= numConfigs <= |configs|
      modifies this
      ensures Valid()
      ensures Step(ret, BusState(regs, pending, trace)) ==
        ConfigureStep(BusState(old(regs), old(pending), old(trace)), codes, reg, configs[..numConfigs])
    {
      var value;
      ret, value := ReadI2c(reg);
      if ret < 0 {
        var _ := I2cErrorHandler(ret);
        return ret;
      }
      ghost var cs := configs[..numConfigs];
      value := ApplyConfigs(value, configs, numConfigs);
      var b := LowByte(value);
      ConfiguredFromFold(old(regs)[reg], value, cs);
      ret := WriteI2c(reg, [b]);
      if ret < 0 {
        var _ := I2cErrorHandler(ret);
        return ret;
      }
      return 0;
    }

    /** The loop of `configure_device` (:152-158): each setting's bit is
        cleared and then set to the setting's value, in array order. */
    static method ApplyConfigs(v0: Word, configs: seq<Setting>, numConfigs: int) returns (value: Word)
      requires 0 <= numConfigs <= |configs|
      ensures value == ApplyAll(v0, configs[..numConfigs])
    {
      value := v0;
      var i := 0;
      while i < numConfigs
        invariant 0 <= i <= numConfigs
        invariant value == ApplyAll(v0, configs[..i])
      {
        assert configs[..i + 1][..i] == configs[..i];
        value := ApplySetting(value, configs[i]);
        i := i + 1;
      }
      assert configs[..numConfigs] == configs[..i];
    }

    /** `set_pwm_duty_cycle` (:173-239): the four ON/OFF values of channel
        `ledId` in one write from LEDn_ON_L on.  Its success value is not
        modelled; 0 stands for it. */
    method SetPwmDutyCycle(ledId: int, dutyCycle: int) returns (ret: int)
      requires Valid() && dutyCycle >= -LedDelayTime
      requires 0 <= LedBase(ledId) && LedBase(ledId) + 4 <= 256
      modifies this
      ensures Valid()
      ensures Step(ret, BusState(regs, pending, trace)) ==
        WriteStep(BusState(old(regs), old(pending), old(trace)), codes, LedBase(ledId), ChannelBytes(dutyCycle))
    {
      var vs := RegisterValues(dutyCycle);
      var bytes := [LowByte(IntToWord(vs[0])), LowByte(IntToWord(vs[1])),
                    LowByte(IntToWord(vs[2])), LowByte(IntToWord(vs[3]))];
      ChannelBytesAreStored(dutyCycle);
      ret := WriteI2c(6 + ledId * 4, bytes);
      if ret < 0 {
        var _ := I2cErrorHandler(ret);
        return ret;
      }
      return 0;
    }

    /** `set_frequency` (:242-273): one byte to PRE_SCALE. */
    method SetFrequency(frequency: int) returns (ret: int)
      requires Valid()
      modifies this
      ensures Valid()
      ensures Step(ret, BusState(regs, pending, trace)) ==
        WriteStep(BusState(old(regs), old(pending), old(trace)), codes, PreScale, [PrescaleByte(frequency)])
    {
      var prescaleValue := PrescaleValue(frequency);
      PrescaleByteIsStored(frequency);
      ret := WriteI2c(PreScale, [LowByte(IntToWord(prescaleValue))]);
      if ret < 0 {
        var _ := I2cErrorHandler(ret);
        return ret;
      }
      return 0;
    }
  }
}
