# zubax_chibios core: CRC-64/WE and the runtime guards, in Dafny

This project models two parts of the zubax_chibios support library and proves properties of them.

- **`os::bootloader::CRC64WE`** is the bootloader's streaming image checksum, the CRC-64/WE parameterisation:
  - polynomial 0x42F0E1EBA9EA3693, not reflected
  - initial value and output xor all ones
  - check value 0x62EC59E3F1A4F00A

  `Crc64We.Accumulator` is a class whose one real field `crc` is the source's `crc_`. `Add` performs the eight unrolled shift/xor assignments in place. `AddBuf` is the `while (len-- > 0)` loop over a byte array. A ghost field `fed` records the bytes added so far, and every method keeps `crc == Fold(0xFFFF_FFFF_FFFF_FFFF, fed)`. The pure specification is:
  - `ShiftStep`: one conditional shift
  - `Shifts`: n of them
  - `Step`: one byte
  - `Fold`: a byte string
  - `Digest`: fold, then complement

- **The runtime guards of `sys.cpp`**:
  - `ZeroHeap`: the zero-heap allocator overrides. Each call's result is an `Outcome`: a returned value, a failed `assert` carrying its expression text, or a `chSysHalt` carrying its cause.
  - `Reboot`: the reboot-request flag, as a class with one boolean field.
  - `Sleep`: the `usleep`/`sleep` overflow guards, and the wrap-around deadline rule of `sleepUntilChTime`. The RTOS sleep a call would make is returned as an `Action` value.
  - `Panic`: the halt hook and the assertion handler. `Panic.Cpu` is a class whose `events` field is the trace of platform calls: the application halt hook, `port_disable`, each `emergencyPrint` string, `bkpt`, and `chSysHalt`. The halt hook appends exactly `HaltHookTrace(cfg, snap, msg)`. Everything it reads from the hardware is a `Snapshot` input:
    - the current thread
    - the core registers
    - PSP and MSP with the eight words each one points at
    - the SCB registers
    - the debugger-enabled bit

  The compile-time switches are a `Config` value: `CH_CFG_USE_REGISTRY`, `__CORTEX_M`, `AGGRESSIVE_SIZE_OPTIMIZATION` and `DEBUG_BUILD`.
  - `Format`: the two `chsnprintf` conversions the code uses. `%08x` becomes `Hex8` and `%d` becomes `IntToDecimal`. Each is proved to round-trip through a parser.

Whether `assert` is compiled in (`NDEBUG`) is the parameter `assertsEnabled`. The tick configuration is fixed at `CH_CFG_ST_FREQUENCY` = 10000 and `CH_CFG_ST_RESOLUTION` = 32. These values are not part of the modelled files; they are the constants of `Sleep`.

Details of the code the model keeps:
- `add(data, len)` asserts `bytes != nullptr` before it looks at `len`. With assertions compiled in, a null buffer therefore fails even when `len == 0`; it is not a no-op.
- The halt hook does not itself halt or loop. It returns after the optional breakpoint, and the trace ends there.
- A missing thread name prints nothing between the brackets. No placeholder is printed.
- `calloc`'s check is `(num == 0) || (sz == 0)`.

## Model

| member | source | states |
|---|---|---|
| Crc64We.UnrolledIsLoop | zubax_chibios/bootloader/util.hpp:47-57 | the eight unrolled `crc_ = (crc_ & Mask) ? (crc_ << 1) ^ Poly : crc_ << 1` lines equal eight iterations of the conditional shift |
| Crc64We.FoldSnoc | zubax_chibios/bootloader/util.hpp:64-67 | adding one more byte to a fed string is one `Step` on the previous state |
| Crc64We.FoldAppend | zubax_chibios/bootloader/util.hpp:60-68 | feeding a buffer in two consecutive chunks gives the same state as feeding it in one |
| Crc64We.EmptyDigest | zubax_chibios/bootloader/util.hpp:39 | the digest of no bytes is 0 (all-ones initial value, all-ones output xor) |
| Crc64We.CheckValue | zubax_chibios/bootloader/util.hpp:28-35 | the digest of the ASCII bytes "123456789" is the catalogued check value 0x62EC59E3F1A4F00A |
| Crc64We.Accumulator.constructor | zubax_chibios/bootloader/util.hpp:39 | a fresh accumulator holds all ones and has been fed nothing |
| Crc64We.Accumulator.Add | zubax_chibios/bootloader/util.hpp:42-58 | `add(byte)` xors the byte into bits 63..56 and applies eight shift steps; the new state is `Step(old state, byte)` and the bytes fed grow by that byte |
| Crc64We.Accumulator.AddBuf | zubax_chibios/bootloader/util.hpp:60-68 | with assertions on, a null buffer fails `bytes != nullptr` whatever `len` is, and nothing changes; otherwise the first `len` bytes are added in order: the state is the fold of the old state over `data[0..len)`, so `len == 0` leaves it unchanged |
| Crc64We.Accumulator.Get | zubax_chibios/bootloader/util.hpp:70 | `get()` reads without changing state and returns the digest of exactly the bytes fed so far |
| Crc64We.CheckByAccumulator | zubax_chibios/bootloader/util.hpp:31-70 | a fresh accumulator fed "123456789" through `add(data, 9)` reports 0x62EC59E3F1A4F00A |
| Crc64We.SameBytesSameDigest | zubax_chibios/bootloader/util.hpp:39-70 | two accumulators fed the same bytes report the same digest |
| ZeroHeap.Malloc | zubax_chibios/sys/sys.cpp:232-237 | `malloc` returns null, and with assertions on it fails `sz == 0` exactly when `sz != 0` |
| ZeroHeap.Calloc | zubax_chibios/sys/sys.cpp:239-245 | `calloc` returns null, and with assertions on it fails its `num == 0` or `sz == 0` check exactly when both are non-zero |
| ZeroHeap.Realloc | zubax_chibios/sys/sys.cpp:247-252 | `realloc` returns null, and with assertions on it fails `sz == 0` exactly when `sz != 0` |
| ZeroHeap.Free | zubax_chibios/sys/sys.cpp:254-263 | `free(nullptr)` does nothing; any other pointer halts with cause "free" |
| ZeroHeap.ZeroSizeIsNull | zubax_chibios/sys/sys.cpp:232-252 | zero-size requests return null in every build and never fail |
| ZeroHeap.ReleaseBuildIsNull | zubax_chibios/sys/sys.cpp:232-252 | with assertions compiled out, every allocation returns null |
| ZeroHeap.CallocFailsIffBytes | zubax_chibios/sys/sys.cpp:239-245 | `calloc`'s check fails exactly when the requested byte count `num * sz` is non-zero |
| ZeroHeap.ReallocIgnoresPointer | zubax_chibios/sys/sys.cpp:247-252 | `realloc`'s outcome does not depend on its pointer argument |
| ZeroHeap.FreeOfAllocatedNeverHalts | zubax_chibios/sys/sys.cpp:232-263 | freeing whatever an allocator returned never halts |
| Reboot.RebootFlag.constructor | zubax_chibios/sys/sys.cpp:53 | the flag starts false |
| Reboot.RebootFlag.RequestReboot | zubax_chibios/sys/sys.cpp:55-58 | `requestReboot` sets the flag |
| Reboot.RebootFlag.IsRebootRequested | zubax_chibios/sys/sys.cpp:60-63 | `isRebootRequested` returns the flag and changes nothing |
| Reboot.RequestIsSticky | zubax_chibios/sys/sys.cpp:53-63 | the flag reads false before any request, true after one, and still true after a second |
| Sleep.UsTicksCeil | zubax_chibios/sys/sys.cpp:210-211 | `usleep`'s tick count is the ceiling of `useconds * FREQ / 10^6`, and its 64-bit intermediate does not overflow |
| Sleep.USleep | zubax_chibios/sys/sys.cpp:208-218 | `usleep` never fails its guard under this tick configuration, sleeps `useconds` exactly when it is positive, and returns 0 |
| Sleep.SleepSecs | zubax_chibios/sys/sys.cpp:220-230 | `sleep` fails its guard exactly when assertions are on and `seconds` exceeds 429496; otherwise it sleeps `seconds` exactly when positive and returns 0 |
| Sleep.SleepGuardIsTickRange | zubax_chibios/sys/sys.cpp:223 | `sleep`'s guard holds exactly when `seconds * FREQ < 2^RES` |
| Sleep.USleepGuardIsTickRange | zubax_chibios/sys/sys.cpp:210-211 | `usleep`'s ceiling tick count is below `2^RES` for every 32-bit `useconds` |
| Sleep.SleepUntilChTime | zubax_chibios/sys/sys.cpp:29-37 | the delta is computed modulo 2^32 and read as signed: it sleeps for a positive tick count below 2^31 that lands exactly on the deadline, and does not sleep exactly when the deadline is now or at most 2^31 ticks in the past |
| Format.HexDigit | zubax_chibios/sys/sys.cpp:113 | one digit of `%x` is a lowercase hex character |
| Format.HexDigitsAreHex | zubax_chibios/sys/sys.cpp:113 | every zero-padded hex digit string consists of lowercase hex characters |
| Format.ParseHexDigits | zubax_chibios/sys/sys.cpp:113 | `n` hex digits of a value below 16^n read back as that value |
| Format.Hex8 | zubax_chibios/sys/sys.cpp:113 | `%08x` of a 32-bit value is exactly 8 characters |
| Format.Hex8RoundTrip | zubax_chibios/sys/sys.cpp:113 | `%08x` of a 32-bit value is 8 lowercase hex digits that read back as the value |
| Format.Hex8Injective | zubax_chibios/sys/sys.cpp:113 | different register values print differently |
| Format.DecimalDigit | zubax_chibios/sys/sys.cpp:200 | one digit of `%d` is a decimal digit |
| Format.NatToDecimal | zubax_chibios/sys/sys.cpp:200 | `%d` of a non-negative number is non-empty, all digits, with no leading zero |
| Format.IntToDecimal | zubax_chibios/sys/sys.cpp:200 | `%d` of an `int` is non-empty, starts with '-' exactly for negatives, and is otherwise all digits |
| Format.ParseNatToDecimal | zubax_chibios/sys/sys.cpp:200 | the decimal text of a natural number reads back as the number |
| Format.IntToDecimalRoundTrip | zubax_chibios/sys/sys.cpp:200 | the `%d` text of every line number reads back as that number |
| Panic.Snprintf | zubax_chibios/sys/sys.cpp:113 | formatting into a buffer of `size` bytes keeps the longest prefix of at most `size - 1` characters |
| Panic.OutputAppend | zubax_chibios/sys/sys.cpp:81-169 | the console text of two consecutive stretches of the trace is their texts concatenated |
| Panic.OutputOne | zubax_chibios/sys/sys.cpp:81-169 | only `emergencyPrint` events reach the console |
| Panic.RegisterLineText | zubax_chibios/sys/sys.cpp:108-116 | a register line prints as name, tab, the 8 hex digits, CRLF, so it is 11 characters longer than the name |
| Panic.HeaderText | zubax_chibios/sys/sys.cpp:91-105 | the header prints "\r\nPANIC [", the thread name only when the registry is on and thread and name are non-null, "] ", the message only when non-null, then CRLF |
| Panic.RegisterLineOnlyPrints | zubax_chibios/sys/sys.cpp:108-116 | a register line is made of console prints only |
| Panic.StackDumpOnlyPrints | zubax_chibios/sys/sys.cpp:118-129 | a stack dump is made of console prints only |
| Panic.CoreDumpOnlyPrints | zubax_chibios/sys/sys.cpp:134-148 | the core-register dump is made of console prints only |
| Panic.ScbDumpOnlyPrints | zubax_chibios/sys/sys.cpp:156-168 | the SCB dump is made of console prints only |
| Panic.DumpOnlyPrints | zubax_chibios/sys/sys.cpp:134-168 | the whole register report is made of console prints only |
| Panic.HeaderOnlyPrints | zubax_chibios/sys/sys.cpp:91-105 | the header is made of console prints only |
| Panic.ShapeOfTrace | zubax_chibios/sys/sys.cpp:85-180 | a trace of hook, disable, prints and an optional breakpoint has the breakpoint, if any, only at the end |
| Panic.HaltHookOrder | zubax_chibios/sys/sys.cpp:81-180 | the halt hook first runs the application hook, then disables interrupts, then only prints; the breakpoint comes last and happens exactly in a debug build with a debugger attached |
| Panic.OutputOfTrace | zubax_chibios/sys/sys.cpp:85-105 | hook, disable and breakpoint contribute nothing to the console text |
| Panic.SizeOptimizedReportIsHeader | zubax_chibios/sys/sys.cpp:107-169 | with `AGGRESSIVE_SIZE_OPTIMIZATION` the console sees exactly the header text |
| Panic.AssertCause | zubax_chibios/sys/sys.cpp:199-201 | the halt cause is the longest prefix of the "file:line:func:expr" message that the 200-byte buffer holds: it is the whole message exactly when that has at most 199 characters, and exactly 199 characters otherwise; when the file name is shorter than 199 characters the cause starts with the file name and ':' |
| Panic.SplitFirstConcat | zubax_chibios/sys/sys.cpp:200 | a colon-free field followed by ':' splits back off at the first colon |
| Panic.AssertCauseFields | zubax_chibios/sys/sys.cpp:199-201 | when file and function hold no colon and the message fits, the cause splits at its first three colons into the file, the line read back as a number, the function (empty for null) and the expression |
| Panic.AllocationAssertCause | zubax_chibios/sys/sys.cpp:193-205 | a debug-build `malloc` of a non-zero size fails, and the resulting halt cause is non-empty and ends with "sz == 0" when it fits |
| Panic.Cpu.constructor | zubax_chibios/sys/sys.cpp:81 | a fresh processor trace is empty |
| Panic.Cpu.RunApplicationHaltHook | zubax_chibios/sys/sys.cpp:85 | calling the application's halt hook appends that event |
| Panic.Cpu.DisableInterrupts | zubax_chibios/sys/sys.cpp:90 | `port_disable` appends that event |
| Panic.Cpu.EmergencyPrint | zubax_chibios/sys/sys.cpp:91 | `emergencyPrint(str)` appends a print of `str` |
| Panic.Cpu.Bkpt | zubax_chibios/sys/sys.cpp:177 | `bkpt #0` appends a breakpoint |
| Panic.Cpu.ChSysHalt | zubax_chibios/sys/sys.cpp:202 | `chSysHalt(reason)` appends a halt with that cause |
| Panic.Cpu.PrintRegister | zubax_chibios/sys/sys.cpp:108-116 | `print_register` prints name, tab, the `%08x` text from its 20-byte buffer, and CRLF |
| Panic.Cpu.PrintStack | zubax_chibios/sys/sys.cpp:118-129 | `print_stack` prints the pointer, then words 0..7 labelled R0, R1, R2, R3, R12, R14[LR], R15[PC], PSR, in that order |
| Panic.Cpu.PrintCoreRegisters | zubax_chibios/sys/sys.cpp:134-148 | prints CONTROL, IPSR, APSR, xPSR and PRIMASK; then BASEPRI and FAULTMASK from Cortex-M3 on; then FPSCR from Cortex-M4 on |
| Panic.Cpu.PrintScbRegisters | zubax_chibios/sys/sys.cpp:156-168 | prints AIRCR, SCR, CCR, SHCSR, CFSR, HFSR, DFSR, MMFAR, BFAR, AFSR in that order |
| Panic.Cpu.HeaderPrinted | zubax_chibios/sys/sys.cpp:91-105 | prints the header: the opening, the optional thread name, "] ", the optional message, CRLF |
| Panic.Cpu.PrintDump | zubax_chibios/sys/sys.cpp:134-168 | prints the four banners, each followed by the core registers, the process stack, the main stack and the SCB |
| Panic.Cpu.ZchSysHaltHook | zubax_chibios/sys/sys.cpp:81-180 | `zchSysHaltHook` appends exactly `HaltHookTrace`: the application hook, interrupts off, the header, the register report unless size-optimised, and a breakpoint in a debug build with a debugger attached; then it returns |
| Panic.Cpu.UnhandledException | zubax_chibios/sys/sys.cpp:187-190 | an interrupt without a handler halts with the fixed cause "UNDEFINED IRQ" |
| Panic.Cpu.AssertFunc | zubax_chibios/sys/sys.cpp:193-205 | `__assert_func` disables interrupts and then halts with the truncated "file:line:func:expr" cause |

## Left out

- Hardware reads are inputs in a `Snapshot`, not behaviour: `__get_CONTROL` and the other core-register intrinsics, `__get_PSP`/`__get_MSP`, the eight stack words, `SCB->`, `CoreDebug->DHCSR` and `chThdGetSelfX`. The hook's reading of memory at PSP/MSP is assumed to yield eight words.
- `emergencyPrint`, `applicationHaltHook`, `port_disable`, `bkpt` and `chSysHalt` are platform calls. They are modelled only as events appended to `Panic.Cpu.events`; what `chSysHalt` does afterwards is not part of this model.
- Panic.Cpu.AssertFunc: the trailing `while (true) { }` after `chSysHalt` is not modelled. The trace ends at the halt.
- RTOS scheduling and time: `chSysLock`/`chSysUnlock`, `chThdSleepS`, `chThdSleepMicroseconds`, `chThdSleepSeconds` and `chVTGetSystemTimeX`. The sleep a call requests is returned as an `Action`, and the current time is a parameter of `SleepUntilChTime`.
- The `DEBUG_LOG` lag report of `sleepUntilChTime` (sys.cpp:39-50) is diagnostic output only.
- `__dso_handle` and `__errno` (sys.cpp:70-78) hold no logic.
- The internals of `chsnprintf` are not part of this model. Only its `%08x` and `%d` conversions and snprintf-style truncation are specified.
- Sleep.USleep: the guard is stated for the fixed configuration of 10000 Hz and 32-bit `systime_t`, under which it can never fail. Other tick configurations are not modelled.
- C strings (thread names, the halt message, and the file, function and expression of an assertion) are modelled as their bytes: one `char` per byte, with no NUL inside and without the terminator. Printing a string that held an embedded NUL, which would stop at that NUL, is not modelled. Under this reading the 199-character limit of the assertion buffer counts bytes.
- Panic.AssertCause: the static 200-byte buffer is a value, not a shared array. Its persistence across calls is not modelled.
- Crc64We.Accumulator.AddBuf: with assertions compiled out, a null buffer with non-zero `len` dereferences null. The model excludes that call by its precondition instead of modelling undefined behaviour.
- Crc64We.Accumulator.Add: each of the eight unrolled assignments is written as a call of the one-step function `ShiftStep`. The code inside that function is the source's conditional expression.
- The bootloader error-code constants (util.hpp:22-25) have no behaviour.
- `size_t` and `unsigned` widths: allocation sizes and `len` are unbounded naturals. Nothing in the modelled code depends on their wrap-around.
