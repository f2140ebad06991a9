# PCA9685 test program, modelled in Dafny

The program `src/test_pca9685.c` drives an NXP PCA9685 16-channel PWM LED
controller over I2C from a Raspberry Pi. It configures the bus and checks
that the device answers at 0x70. It then sets MODE1: internal clock,
register auto-increment, ALLCALL, no sub-addresses, asleep. Next it writes
the PRE_SCALE byte for the requested frequency, wakes the device, writes
the four ON/OFF counter bytes of one LED channel, and puts the device back
to sleep. It stops at the first step that returns a negative value and
returns that value. `include/pca9685_registers.h` gives the register map,
the power-on defaults and the bit-packed MODE1 settings
`value | (bit_position << 8)`.

The modules follow the program's structure:

- `Registers` (`registers.dfy`): the header's addresses, defaults and
  setting encodings, with lemmas that check the literals against the
  layout they follow and record where they do not.
- `RegisterConfig` (`register_config.dfy`): the read-modify-write fold of
  `configure_device`. It shows which bit each setting leaves, what it adds
  above the low byte, and that the fold is idempotent.
- `Pwm` (`pwm.dfy`) and `Prescale` (`prescale.dfy`): the arithmetic of
  `set_pwm_duty_cycle` and `set_frequency`, each beside the rule of the
  data sheet it cites.
- `ErrorHandler` (`error_handler.dfy`): the reboot decision of
  `i2c_error_handler`.
- `Mode1Sequence` (`mode1_sequence.dfy`): the three MODE1 bytes `main`
  writes, from any MODE1 contents.
- `Device` (`device.dfy`): the bus as a class `Pca9685Bus`. It holds a
  256-byte register file, the statuses the transport will return, and a
  ghost trace of calls and reboots. Each function of the program is a
  method whose contract is a step function on the bus state.
- `TestProgram` (`test_program.dfy`): `main` as a step function, and what
  it returns, what it writes and which registers it leaves.
- `TestMain` (`test_main.dfy`): `main` as a method on the bus.

The model follows the code where it departs from the NXP data sheet. Each
departure is a lemma:

- The full-on test `duty_cycle < 1` (:194) agrees with the counter rule of
  section 7.3.3 only at 0 (`Pwm.DutyTestDivergesFromDataSheet`). At 4095,
  which the comment at :172 calls 100 %, the code's full-on result matches
  that comment, though not the plain counter rule.
- The prescale division in MHz (:244, :259) gives -1 for 25 .. 1525 Hz,
  where equation (1) of section 7.3.5 gives 3 .. 255
  (`Prescale.MiddleBandDivergesFromDataSheet`).
- LED_OUTPUT_ENABLE and LED_OUTPUT_DISABLE shift by 4 instead of 8
  (`Registers.LedOutputMasksMisencoded`).
- Three defaults are 0x08 where the binary beside them reads 0x10
  (`Registers.ThreeDefaultsDisagreeWithDocumentedBits`).

The model also follows the code where it departs from its own comments,
and keeps the code's behaviour in the cases the comments leave open:

- The delay constant is `ROUND(0.10 * 4096) - 1` (:189). The macro as written
  rounds 409.6 to 410, so the constant is 409 (`Pwm.DelayTimeIs409`).
- The comment at :193 says the counters are computed "if less than 100%",
  but the test is `duty_cycle < 1` (:194). Every duty cycle of 1 or more,
  not only 4095 (:172's full scale), takes the full-on branch.
- The wrap-around test for the OFF counter is `> 4096` (:200).
- The comment at :252 claims that prescale values run from 0x03 to 0xFF.
  The middle band's integer division (:259) yields -1, which the one-byte
  write stores as 0xFF (`Prescale.ClaimedRangeOnlyAtTheEnds` for the range,
  `Prescale.MiddleBandStoresSlowest` and `Prescale.PrescaleByteIsStored` for
  the stored byte).
- `scan_for_device` passes a failed scan's status to the handler and then
  consults the address book anyway (:116-126). It returns -1 when the
  device is not listed and 0 otherwise, never the scan's status.
- `configure_device` returns 0 on success and the transport's negative
  status on failure (:144-169), never the register value.
- `main` calls `config_i2c` before the scan. It returns at the first step
  whose value is negative (:299-351), and a positive value does not stop
  it.

## Model

| member | source | states |
|---|---|---|
| Registers.LedRegisterLayout | include/pca9685_registers.h:36-99 | For every channel n = 0 .. 15, LEDn_ON_L is 6 + 4n and ON_H, OFF_L and OFF_H follow it; LED15_OFF_H is 0x45 |
| Registers.AddressMapOrdered | include/pca9685_registers.h:27-104 | The addresses rise strictly from MODE1 = 0x00 to TestMode = 0xFF, so they are distinct and fit a byte; ALL_LED_* are 0xFA .. 0xFD and PRE_SCALE is 0xFE |
| Registers.ParseByte | include/pca9685_registers.h:107-121 | An eight-digit binary comment is read as bits 7 down to 0 |
| Registers.DefaultsMatchDocumentedBits | include/pca9685_registers.h:107-121 | Twelve of the fifteen defaults equal the binary number in their comment |
| Registers.ThreeDefaultsDisagreeWithDocumentedBits | include/pca9685_registers.h:116-120 | LEDN_OFF_H, ALL_LED_ON_H and ALL_LED_OFF_H default to 0x08, while their comment 00010000 is 0x10 |
| Registers.Mode1SettingsDecode | include/pca9685_registers.h:125-143 | Every MODE1 setting decodes through `c >> 8` and `c & 0xFF` to a 0/1 value at its bit: RESTART 7, clock 6, AI 5, sleep 4, SUB1..3 at 3..1, ALLCALL 0 |
| Registers.ComplementaryPairs | include/pca9685_registers.h:125-143 | NORMAL_MODE/LOW_POWER, INT/EXT_CLOCK, AI/NO_AI, SUBn/NO_SUBn and ALLCALL/NO_ALLCALL name the same bit with opposite values |
| Registers.LedOutputMasksMisencoded | include/pca9685_registers.h:124-146 | LED_OUTPUT_ENABLE/DISABLE decode to bit 0 with values 0x40/0x41, so neither is a single-bit setting |
| RegisterConfig.ApplySetting | src/test_pca9685.c:156-157 | One iteration: clear bit p of reg, then OR in `c << p`, where p = `c >> 8`; StepNamedBit, StepOtherBit and StepHighBits state its effect bit by bit |
| RegisterConfig.ApplyAll | src/test_pca9685.c:152-158 | The value the loop holds after the settings, applied in array order; FoldLowBits, FoldHighBits and FoldIdempotent state what it computes |
| RegisterConfig.LastNaming | src/test_pca9685.c:152-158 | The index of the last setting that names bit p, or -1; no later setting names p |
| RegisterConfig.StepNamedBit | src/test_pca9685.c:156-157 | One iteration gives the setting's bit the setting's value |
| RegisterConfig.StepOtherBit | src/test_pca9685.c:156-157 | One iteration keeps every other bit of the low byte |
| RegisterConfig.StepHighBits | src/test_pca9685.c:156-157 | Above the low byte, one iteration only adds the setting's own `p << (8 + p)` residue |
| RegisterConfig.FoldLowBits | src/test_pca9685.c:152-158 | After the loop, each bit of the low byte holds the value of the last setting naming it, or the value read when none does |
| RegisterConfig.FoldHighBits | src/test_pca9685.c:152-158 | After the loop, the bits above the low byte are those read plus the settings' residues |
| RegisterConfig.FoldIdempotent | src/test_pca9685.c:152-158 | Applying the same well-formed list again leaves the value unchanged |
| RegisterConfig.LedOutputEnableTouchesTwoBits | include/pca9685_registers.h:145 | Applying the misencoded LED_OUTPUT_ENABLE clears bit 0 and sets bit 6 |
| Mode1Sequence.Configured | src/test_pca9685.c:144-162 | The byte configure_device writes back: the low byte of the fold over the byte read; SetupValue, NormalModeValue and LowPowerValue give it for main's lists |
| Mode1Sequence.ConfiguredIdempotent | src/test_pca9685.c:144-169 | Running configure_device a second time with the same well-formed list writes the same byte it wrote the first time |
| Mode1Sequence.SetupValue | src/test_pca9685.c:315-318 | The seven-setting configuration keeps RESTART as read and makes the rest of MODE1 0b011_0001 (AI, SLEEP, ALLCALL) |
| Mode1Sequence.NormalModeValue | src/test_pca9685.c:329-331 | NORMAL_MODE alone clears SLEEP and keeps the other bits |
| Mode1Sequence.LowPowerValue | src/test_pca9685.c:347-349 | LOW_POWER alone sets SLEEP and keeps the other bits |
| Mode1Sequence.Mode1Values | src/test_pca9685.c:315-351 | From any MODE1 contents, main writes asleep, then awake, then asleep again, with RESTART kept as found |
| Mode1Sequence.Mode1ValuesFromDefault | src/test_pca9685.c:315-351 | From the power-on value 0x11, MODE1 becomes 0x31, then 0x21, then 0x31 |
| Pwm.RoundMacroExpanded | src/test_pca9685.c:36 | The ROUND macro as it expands without parentheses around its argument; DelayTimeIs409 evaluates it at 0.10 * 4096 |
| Pwm.PwmCounters | src/test_pca9685.c:189-206 | `led_delay_time` and `led_off_time`: the branch on `duty_cycle < 1`, the `> 4096` wrap and the full-on flag; BelowOneCounters and FullOnCounters give them branch by branch, DutyTestDivergesFromDataSheet compares them with the data sheet |
| Pwm.DelayTimeIs409 | src/test_pca9685.c:189 | The unparenthesised ROUND macro and a correct one both round 409.6 to 410, so the delay is 409 |
| Pwm.RegisterValues | src/test_pca9685.c:209-215 | The four values handed to write_i2c are counters in 0 .. 0x1FFF, and both high values fit a byte |
| Pwm.BelowOneCounters | src/test_pca9685.c:194-202 | For -409 <= duty_cycle < 1, ON is 409 and OFF is 409 + duty_cycle; the wrap branch is never taken |
| Pwm.FullOnCounters | src/test_pca9685.c:203-215 | For every duty_cycle >= 1, ON is 0x1199 and OFF is 0; the stored bytes are 0x99, 0x11 (full-on bit set), 0x00, 0x00 |
| Pwm.ChannelBytesAreStored | src/test_pca9685.c:209-231 | The four bytes the channel keeps are the low bytes of the four values written |
| Pwm.ChannelBytes | src/test_pca9685.c:209-231 | The four bytes LEDn_ON_L .. LEDn_OFF_H keep; ChannelBytesAreStored ties them to the low bytes of the four values written |
| Pwm.ByteSplitRoundTrip | src/test_pca9685.c:209-212 | Splitting a counter up to 0x1FFF into its low byte and its bits from 8 up loses nothing, and the two stored bytes join back into it |
| Pwm.DataSheetCounters | src/test_pca9685.c:191-202 | The data sheet's counters: OFF lies in the 4096-count frame and is ON plus the duty cycle, modulo 4096 |
| Pwm.DutyTestDivergesFromDataSheet | src/test_pca9685.c:194 | The code's counters equal the data sheet's exactly at duty cycle 0; at 2048 the data sheet's OFF is 2457 |
| Prescale.PrescaleValue | src/test_pca9685.c:253-260 | `prescale_value[0]`; PrescaleBands gives it band by band and ClaimedRangeOnlyAtTheEnds checks the range claim of :252 |
| Prescale.PrescaleByte | src/test_pca9685.c:253-265 | The byte PRE_SCALE keeps; PrescaleByteIsStored ties it to the low byte of `prescale_value[0]` |
| Prescale.PrescaleBands | src/test_pca9685.c:253-260 | 1526 Hz and up give 0x03, 24 Hz and below give 0xFF, and every frequency in between gives -1 |
| Prescale.ClaimedRangeOnlyAtTheEnds | src/test_pca9685.c:252-260 | The value lies in the claimed range 0x03 .. 0xFF exactly outside the middle band |
| Prescale.PrescaleByteIsStored | src/test_pca9685.c:253-265 | The computed value is a C int, and PRE_SCALE keeps its low byte: 0x03 from 1526 Hz up, 0xFF otherwise |
| Prescale.MiddleBandStoresSlowest | src/test_pca9685.c:255-265 | In the middle band PRE_SCALE keeps 0xFF, the same byte as at 24 Hz |
| Prescale.FastBandStoresThree | src/test_pca9685.c:253-254 | From 1526 Hz up PRE_SCALE keeps 0x03 |
| Prescale.MiddleBandDivergesFromDataSheet | src/test_pca9685.c:244-259 | Over 25 .. 1525 Hz the data-sheet equation gives 3 .. 255, while the code gives -1 |
| Prescale.DataSheetExamples | src/test_pca9685.c:253-259 | At 1526 Hz the data sheet and the code agree on 0x03; at 200 Hz the data sheet gives 30 and the code -1 |
| ErrorHandler.RequestsReboot | src/test_pca9685.c:58-106 | The switch: a case per listed code, `default` doing nothing; RebootsExactlyForListed and OnlyErrorsReboot state which statuses reboot |
| ErrorHandler.RebootsExactlyForListed | src/test_pca9685.c:58-106 | The handler reboots exactly when errno is one of the nine listed codes |
| ErrorHandler.OnlyErrorsReboot | src/test_pca9685.c:55-109 | A status that is not negative never causes a reboot |
| Device.HandlerEvents | src/test_pca9685.c:55-109 | What i2c_error_handler adds to the trace: one reboot exactly when RequestsReboot holds; HandlerWritesNothing states it writes no register |
| Device.Stored | src/test_pca9685.c:162 | A write of the bytes from reg on with auto-increment: the registers reg .. reg + n - 1 take the n bytes in order, and every other register keeps its value |
| Device.ConfigStep | src/test_pca9685.c:299-302 | config_i2c leaves the registers alone and uses up one status |
| Device.ScanStep | src/test_pca9685.c:111-131 | The scan returns 0 exactly when the address book lists the device and -1 exactly when it does not; registers are unchanged |
| Device.WriteStep | src/test_pca9685.c:162-165 | A write returns 0 exactly when the transport succeeds and the transport's own negative code when it fails, never a positive value |
| Device.ConfigureStep | src/test_pca9685.c:134-170 | configure_device returns 0 exactly when both its read and its write succeed; otherwise it returns the failing read's code, or the failing write's code |
| Device.ConfigureStepFrame | src/test_pca9685.c:134-170 | One read of reg then at most one write, to reg only. A failed read returns its code, goes to the handler and writes nothing. A failed write returns its code. On success reg is configured and no other register changes |
| Device.Pca9685Bus.ConfigI2c | src/test_pca9685.c:299 | The transport's status is returned and recorded; registers are unchanged |
| Device.Pca9685Bus.ScanBusI2c | src/test_pca9685.c:117 | The scan fills the address book and records its status |
| Device.Pca9685Bus.ReadI2c | src/test_pca9685.c:144 | A successful read yields the register's byte |
| Device.Pca9685Bus.WriteI2c | src/test_pca9685.c:162 | A successful write stores the bytes from reg on; a failed one changes no register |
| Device.Pca9685Bus.RebootDevice | src/test_pca9685.c:44-53 | A reboot is recorded and changes nothing else |
| Device.Pca9685Bus.I2cErrorHandler | src/test_pca9685.c:55-109 | The handler returns 0 and records a reboot exactly for the listed codes |
| Device.Pca9685Bus.ScanForDevice | src/test_pca9685.c:111-131 | scan_for_device does what ScanStep says, even when the scan fails |
| Device.Pca9685Bus.ConfigureDevice | src/test_pca9685.c:134-170 | configure_device does what ConfigureStep says on the first num_configs settings |
| Device.Pca9685Bus.ApplyConfigs | src/test_pca9685.c:152-158 | The loop computes the fold of the first num_configs settings in array order |
| Device.Pca9685Bus.SetPwmDutyCycle | src/test_pca9685.c:173-239 | set_pwm_duty_cycle is one write of ChannelBytes from 6 + 4 led_id on |
| Device.Pca9685Bus.SetFrequency | src/test_pca9685.c:242-273 | set_frequency is one one-byte write to PRE_SCALE of PrescaleByte |
| TestProgram.HandlerWritesNothing | src/test_pca9685.c:55-109 | Error handling adds no write to the trace |
| TestProgram.ConfigStepWrites | src/test_pca9685.c:299-302 | config_i2c writes nothing |
| TestProgram.ScanStepWrites | src/test_pca9685.c:111-131 | scan_for_device writes nothing, failing or not |
| TestProgram.WriteStepWrites | src/test_pca9685.c:162-165 | A write adds its write exactly when it returns 0, and otherwise leaves writes and registers as they were |
| TestProgram.ConfigureStepWrites | src/test_pca9685.c:144-169 | configure_device adds its one write when it returns 0 and nothing when its read or write fails |
| TestProgram.OpStep | src/test_pca9685.c:315-351 | One of main's register operations: a configure_device or a plain write; OpStepResult and OpStepWrites state its result and its writes |
| TestProgram.RunOps | src/test_pca9685.c:315-351 | main's operations in order, stopping at the first negative value; RunOpsResult and RunOpsWrites state its result and writes for any list |
| TestProgram.MainRun | src/test_pca9685.c:298-351 | main's call chain: config_i2c, the scan, then FromSetup; MainRunIsRunOps, MainRunResult and MainRunWrites state what it returns and writes |
| TestProgram.FromSetup | src/test_pca9685.c:315-320 | The seven-setting configure of MODE1, then FromFrequency unless it fails |
| TestProgram.FromFrequency | src/test_pca9685.c:322-325 | set_frequency, then FromWake unless it fails |
| TestProgram.FromWake | src/test_pca9685.c:327-333 | configure_device with NORMAL_MODE, then FromDuty unless it fails |
| TestProgram.FromDuty | src/test_pca9685.c:335-338 | set_pwm_duty_cycle, then FromSleep unless it fails |
| TestProgram.FromSleep | src/test_pca9685.c:340-355 | configure_device with LOW_POWER, then 0 unless it fails |
| TestProgram.MainRunIsRunOps | src/test_pca9685.c:298-351 | After the bus setup and the scan, main is the run of its five register operations in order, stopping at the first negative value |
| TestProgram.OpStepResult | src/test_pca9685.c:315-351 | One operation returns the first negative status among its calls and uses up exactly its calls when it succeeds |
| TestProgram.RunOpsResult | src/test_pca9685.c:315-351 | A run of operations returns the first negative status among all the calls it would make, 0 when there is none |
| TestProgram.FirstNegativeMeaning | src/test_pca9685.c:298-351 | "The first negative status": never positive, 0 exactly when none is negative, otherwise the entry at the first negative position |
| TestProgram.MainCalls | src/test_pca9685.c:315-351 | After the scan, main makes eight transport calls when all succeed |
| TestProgram.MainRunResult | src/test_pca9685.c:275-356 | main returns the first negative status of its calls in order, with the scan standing for the address-book check; it returns 0 exactly when the device is listed and every call other than the scan succeeds (the scan's own status plays no part) |
| TestProgram.OpStepWrites | src/test_pca9685.c:315-351 | One operation adds its planned write exactly when it returns 0 and changes nothing when it fails |
| TestProgram.RunOpsWrites | src/test_pca9685.c:315-351 | A run leaves the device having accepted the first n planned writes and nothing else, all of them exactly when it returns 0 |
| TestProgram.MainRunWrites | src/test_pca9685.c:275-356 | main leaves the device having accepted a prefix of its five planned writes, all five exactly when it returns 0, none when the bus setup fails or the device is not listed |
| TestProgram.PlannedOpsWith | src/test_pca9685.c:315-351 | The five writes: MODE1 asleep, the PRE_SCALE byte, MODE1 awake, the channel's bytes, MODE1 asleep, with RESTART kept as found |
| TestProgram.MainWritesShape | src/test_pca9685.c:315-351 | For every valid LED channel, duty cycle and frequency, main's planned writes have that shape |
| TestProgram.MainWritesValues | src/test_pca9685.c:285-351 | With main's values (LED15, 2048, 1526 Hz) the writes are MODE1 0b?011_0001, PRE_SCALE 0x03, MODE1 0b?010_0001, 0x99 0x11 0x00 0x00 from 0x42 on, MODE1 0b?011_0001 |
| TestProgram.ShapeAsleepAtPrescale | src/test_pca9685.c:241-333 | Writes of main's shape change PRE_SCALE only after a MODE1 write with SLEEP set and with no MODE1 write in between |
| TestProgram.MainSleepsForPrescale | src/test_pca9685.c:241-333 | For all parameters and from any MODE1, every prefix of main's writes changes the prescaler only while the device sleeps |
| TestProgram.MainRegisters | src/test_pca9685.c:285-351 | main's five writes leave MODE1 asleep with AI and ALLCALL (0x31 from the default), PRE_SCALE 0x03, LED15 full on, and every other register as it was |
| TestProgram.MainRunReplays | src/test_pca9685.c:275-356 | A run that returns 0 leaves the registers that all five planned writes make |
| TestProgram.MainRunRegisters | src/test_pca9685.c:275-356 | A run with main's values that returns 0 leaves MODE1, PRE_SCALE and LED15 as MainRegisters says |
| TestMain.RunTest | src/test_pca9685.c:275-356 | main on the bus returns and leaves exactly what MainRun says, for any frequency, any LED channel whose four registers exist and any duty cycle of at least -409 (ValidRun) |
| TestMain.TestPca9685 | src/test_pca9685.c:275-356 | main with its own values returns the first negative status or 0, 0 exactly when the device is listed and every call other than the scan succeeds (the scan's own status plays no part), and then PRE_SCALE is 0x03, LED15 is full on and MODE1 is asleep |

## Left out

- The I2C library is not part of this model. `config_i2c`, `scan_bus_i2c`, `read_i2c` and `write_i2c` take their statuses from a sequence fixed in advance (success once it runs out). The pin numbers and speed grade passed to `config_i2c` have no effect in the model.
- The nine error macros of the I2C library have unknown values. They are a parameter, required to be distinct and positive.
- `write_i2c` receives `int` buffers. The model assumes each register keeps the low byte of its element.
- Multi-byte writes fill consecutive registers, since main enables auto-increment before the first one.
- `reboot_device` toggles a GPIO pin and sleeps. The model records a reboot in the trace: it does not reset the register file, and the GPIO pin and the delay are not modelled.
- `sleep(5)` and every `printf` are left out. This includes the `%.3f` given an `int` at :217-218.
- The floating-point `ROUND` macro is evaluated over exact reals. The binary rounding of 0.10 does not change its result, 410.
- Device.Pca9685Bus.WriteI2c: a failed `write_i2c` stores nothing. A partial transfer (some of the four LED bytes written before the failure) is not modelled, and TestProgram.MainRunWrites' "nothing else is written" rests on this.
- Device.Pca9685Bus.ReadI2c: a successful `read_i2c` leaves the register's byte zero-extended in the `int` buffer. The library's own buffer handling is not part of this model.
- Device.Pca9685Bus.ScanBusI2c: a failing scan still yields the library's address book. In the C code `address_book` (:113) is an uninitialised local, so what a failed scan leaves in it is not modelled.
- Device.Pca9685Bus.SetPwmDutyCycle: it requires the four registers from 6 + 4·led_id on to lie inside 0 .. 255. The C code accepts any `led_id`, and main's only call uses 15, which meets the bound.
- TestProgram.ValidRun: it requires the same bound of the LED channel as SetPwmDutyCycle, and a duty cycle of at least -409. main's fixed values, channel 15 and duty cycle 2048, meet both.
- Device.Pca9685Bus.SetPwmDutyCycle: it returns 0 on success instead of `duty_cycle_actual`, which the source never declares.
- Device.Pca9685Bus.SetPwmDutyCycle: it requires duty_cycle >= -409. Below that, `>> 8` of a negative value is implementation-defined in C.
- Device.Pca9685Bus.ConfigureDevice: `int *configs` is a sequence of settings whose bit position is 0 .. 7, so every shift is defined. Every setting in the header meets this. The caller's array cannot alias anything else.
- TestMain.RunTest: `config[7]` in main is a sequence value that main's two `config[0] = …` assignments replace. It is not an array updated in place.
- The one-element buffers `reg_value[1]` and `prescale_value[1]` are local values.
- The device address is a parameter of the C functions. The model has one device at 0x70, so the address plays no part beyond the address-book check.
- TestMain.RunTest takes the values of main's `// UPDATE` lines (LED channel, duty cycle, frequency) as parameters, and TestPca9685 fixes them to main's 15, 2048 and 1526. A method named `Main` would become the entry point, so main is named RunTest.
- TestProgram.MainRun: main's straight-line code is written as a chain of functions, one per step from the configuration of MODE1 on. MainRunIsRunOps proves this chain equal to running the operation list.
