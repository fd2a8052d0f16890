# fpga_loader: a Dafny model of the passive-serial configuration engine

This project models the core of `fpga_loader.c`. That file is a Linux character-device driver for an MPC5200 board. It loads an Altera FPGA bitstream over the passive-serial interface, bit-banged on GPIO pins.

The modelled core covers three things:

- **The session discipline.** `open` resets the write counter. `write` increments it and then applies the size guard and the single-write guard.
- **The protocol run by `write`.** It copies the image into the buffer and polls nSTATUS within a bounded budget. It then pulses nCONFIG, and clocks the image out least significant bit first on DATA0, with one DCLK pulse per bit. It stops when CONF_DONE reads high or when the overrun bound is reached.
- **The register-level pin helpers.** These are the read-modify-write helpers, plus the save/restore of the pin setup in `init_gpio_fpga` and `exit_gpio_fpga`.

The project has three modules:

- `Registers` (`registers.dfy`) holds the mask constants and the register updates. Each update is stated by the bits it forces and the bits it keeps. It also holds the record of the five pin-setup registers.
- `PassiveSerial` (`passive_serial.dfy`) gives the protocol as values and proves what the protocol guarantees. The values include:
  - the guards of a write;
  - the first nSTATUS-high read in the poll window;
  - the number of bits the clocking loop shifts out;
  - the stream of bits put on DATA0;
  - the buffer after the in-place shifting;
  - the sequence of output actions.
- `Loader` (`loader.dfy`) has a class `FpgaLoader` whose fields are the driver's globals:
  - the GPIO registers;
  - the five `*_backup` registers;
  - `number_of_writes`;
  - the kmalloc'ed buffer as an `array<bv8>`, with the distance the global `buf` pointer has advanced into it.

  Its methods follow the C functions, with the same loops and the same branches. Where a C function does several things, pieces of it are separate methods: `write` is split into `CopyIn`, `Configure`, `WaitForStatus`, `ClockOut`, `ClockStep`, `ClockBit` and `PulseBit`, and the register part of `init_gpio_fpga` is `SaveAndReprogram`. The pin helpers and the setup methods are specified with the register functions of `Registers`. The write path is specified with the protocol functions of `PassiveSerial`.

The input register `wkup_ival` is an oracle `ival: nat -> bv8`: the value it shows at its n-th read. The field `ivalReads` counts the reads. The nSTATUS poll and the CONF_DONE test read the same register, so they share the counter.

Output actions are appended to a ghost `trace` of events. An event is `Drive(pin, level)` for nCONFIG, DATA0 and DCLK, or `Delay(us)` for `udelay`. The pointer offset is a field that `open` does not reset. The image therefore lands wherever the previous session left the pointer.

Where the two disagree, the model follows the C code rather than an idealised protocol:

- CONF_DONE is tested before each bit, so a line that is already high means that zero bits are clocked.
- The poll makes up to TIMEOUT + 1 status reads, but waits only TIMEOUT times.
- The counter is incremented before the size guard. An oversize write therefore uses up the session.
- A zero-byte write is not a no-op. When CONF_DONE reads low, the loop clocks one bit, taken from the stale byte under the pointer, and then stops on the overrun bound: `ClockedBits` of a zero-byte write is 0 or 1.

## Model

| member | source | states |
|---|---|---|
| Registers.Set32 | fpga_loader.c:98-123 | `x \|= m` on a 32-bit register sets exactly the mask bits and keeps every other bit |
| Registers.Clear32 | fpga_loader.c:107-132 | `x &= ~m` on a 32-bit register clears exactly the mask bits and keeps every other bit |
| Registers.Set8 | fpga_loader.c:134-141 | `x \|= m` on an 8-bit register sets exactly the mask bits and keeps every other bit |
| Registers.Clear8 | fpga_loader.c:143-150 | `x &= ~m` on an 8-bit register clears exactly the mask bits and keeps every other bit |
| Registers.DoneLine | fpga_loader.c:152-155 | `read_done` is true exactly when bit 4 of the sampled wkup_ival is 1 |
| Registers.StatusLine | fpga_loader.c:157-160 | `read_status` is true exactly when bit 7 of the sampled wkup_ival is 1 |
| Registers.DriveData | fpga_loader.c:335-338 | choosing `set_data` or `clear_data` by the bit makes DATA0 equal the bit and keeps every other bit of simple_dvo |
| Registers.Reconfigured | fpga_loader.c:194-218 | the five register values `init_gpio_fpga` writes, given what the registers held; it has no contract of its own, and `ReconfiguredPins` states which bits it forces and keeps |
| Registers.ReconfiguredPins | fpga_loader.c:194-218 | the setup `init_gpio_fpga` writes: the IrDA port_config field is cleared; DCLK and DATA0 are enabled as outputs; the four wake-up pins are enabled, with nSTATUS and CONF_DONE as inputs and nCONFIG and the mux select as outputs; every other bit of the five registers is kept |
| Registers.ClockedDvo | fpga_loader.c:335-341 | after one clocked bit, DATA0 holds the bit, DCLK is low again, and no other bit of simple_dvo changed |
| PassiveSerial.Guard | fpga_loader.c:299-307 | the size guard comes first: an oversize write gets -EFBIG whatever the counter; a write passes exactly when it is not oversize and the counter was 0 before its increment; every rejection is -EFBIG or -EIO |
| PassiveSerial.SessionGuards | fpga_loader.c:298-307 | there is one guard outcome per write of a run |
| PassiveSerial.SessionGuardsAt | fpga_loader.c:298-307 | the counter advances on every write, whatever its outcome: the i-th write of a run is judged with the counter advanced by i |
| PassiveSerial.OneWritePerSession | fpga_loader.c:286-307 | after `open`, an oversize write (more than 130000 bytes) fails with -EFBIG wherever it comes; a write of exactly 130000 bytes passes the size guard; the first write passes both guards when it is not oversize; every later write that is not oversize fails with -EIO, even when the first write was rejected as oversize |
| PassiveSerial.FirstStatusHigh | fpga_loader.c:310-319 | a found read lies in the window and sees nSTATUS high |
| PassiveSerial.FirstStatusHighIsFirst | fpga_loader.c:310-319 | every read before the found one is low; none is found exactly when every read of the window is low |
| PassiveSerial.FirstReady | fpga_loader.c:310-319 | the poll succeeds after at most TIMEOUT failed reads, on a read that sees nSTATUS high |
| PassiveSerial.FirstReadyAt | fpga_loader.c:310-319 | the poll succeeds after exactly p failed reads if and only if reads 0..p-1 are low and read p is high |
| PassiveSerial.FirstReadyNone | fpga_loader.c:310-316 | the poll times out if and only if all TIMEOUT + 1 reads are low |
| PassiveSerial.Delays | fpga_loader.c:317-318 | the poll's waits are p one-microsecond delays and nothing else |
| PassiveSerial.FirstDoneHigh | fpga_loader.c:330-333 | the stopping read lies in the window, and it sees CONF_DONE high unless the window is exhausted |
| PassiveSerial.FirstDoneHighIsFirst | fpga_loader.c:330-333 | every CONF_DONE read before the stopping read is low |
| PassiveSerial.ClockedBits | fpga_loader.c:330-355 | the loop clocks at most 8 * size + 1 bits, and when it clocks fewer it has just read CONF_DONE high |
| PassiveSerial.ClockedBitsAt | fpga_loader.c:330-355 | the loop clocks exactly k bits if and only if the first k CONF_DONE reads are low and either read k is high or k is 8 * size + 1 (so 0 bits when CONF_DONE is high at once) |
| PassiveSerial.DoneReads | fpga_loader.c:331-333 | the CONF_DONE reads of a loop that clocked n bits: one per bit, plus the high read it stopped on when it stopped below the overrun bound; a definition, used in the read counts of `ClockOut` and `Write` |
| PassiveSerial.ReachesOverrun | fpga_loader.c:351 | whether a write gets as far as the overrun bit: the poll succeeds and the loop then clocks 8 * size + 1 bits; a definition, used in the room requirement of `Write` |
| PassiveSerial.ShiftN | fpga_loader.c:343 | a byte after s executions of `*buf >>= 1`; a definition, whose properties `ShiftedOut` and `BitOfMask` state |
| PassiveSerial.ShiftedOut | fpga_loader.c:343 | eight right shifts clear a byte |
| PassiveSerial.BitOfMask | fpga_loader.c:335 | the bit order used for the stream agrees with masking: bit 0 is 0x01, bit 7 is 0x80 |
| PassiveSerial.Copied | fpga_loader.c:308 | the memcpy keeps the buffer's length |
| PassiveSerial.CopiedBytes | fpga_loader.c:308 | after the memcpy, the bytes from the pointer on are the image's, and every other byte is unchanged |
| PassiveSerial.CopiedStream | fpga_loader.c:308-346 | stream bit k, for k < 8 * size, is bit k mod 8 of image byte k / 8: least significant bit first and in byte order |
| PassiveSerial.OverrunBitIsStale | fpga_loader.c:351-354 | the overrun bit comes from the byte after the image, which the write did not supply |
| PassiveSerial.Shifted | fpga_loader.c:343-346 | shifting in place keeps the buffer's length |
| PassiveSerial.ShiftedBuffer | fpga_loader.c:343-346 | after n bits, the n / 8 bytes passed read 0, the byte under the pointer is shifted by n mod 8, and no other byte changed |
| PassiveSerial.ShiftedConsumed | fpga_loader.c:343-346 | every byte the pointer has moved past reads 0 |
| PassiveSerial.ShiftedPointer | fpga_loader.c:343-346 | the byte under the advanced pointer has been shifted n mod 8 times |
| PassiveSerial.ShiftedOthers | fpga_loader.c:343-346 | bytes before the start pointer and after the current one are untouched |
| PassiveSerial.PointerBit | fpga_loader.c:335-346 | the low bit of the byte under the pointer, tested before the k-th shift, is stream bit k |
| PassiveSerial.DvoAfter | fpga_loader.c:335-341 | simple_dvo after n clocked bits; a definition, whose properties `DvoAfterKeeps` and `DvoAfterLast` state |
| PassiveSerial.DvoAfterKeeps | fpga_loader.c:335-341 | clocking any number of bits changes only the DATA0 and DCLK bits of simple_dvo |
| PassiveSerial.DvoAfterLast | fpga_loader.c:335-341 | after at least one bit, DCLK rests low and DATA0 holds the last bit clocked |
| PassiveSerial.BitsTrace | fpga_loader.c:335-341 | the actions of n clocked bits; a definition, whose shape `BitsTraceShape` and `DataLevelsOfBits` state |
| PassiveSerial.BitsTraceShape | fpga_loader.c:335-341 | n bits are 3 * n actions; action 3k sets DATA0 to stream bit k, and it is followed by exactly one DCLK high and then one DCLK low |
| PassiveSerial.StreamBits | fpga_loader.c:335-346 | the stream has n entries, and entry k is bit k mod 8 of byte off + k / 8 |
| PassiveSerial.DataLevelsOfBits | fpga_loader.c:335-341 | the levels driven on DATA0 are exactly stream bits 0..n-1, in order |
| PassiveSerial.LsbFirstExample | fpga_loader.c:335-346 | the byte 0xB0 goes out as 0,0,0,0,1,1,0,1 |
| PassiveSerial.TwoByteExample | fpga_loader.c:330-346 | the image [0x01, 0x00], with CONF_DONE going high at the fourth read, clocks 3 bits: 1, 0, 0 |
| PassiveSerial.ConfigureTrace | fpga_loader.c:310-341 | the actions of a successful write: p + 4 + 3 * n of them, for p failed polls and n clocked bits; their order is stated by `ResetPrecedesClocking` |
| PassiveSerial.ResetPrecedesClocking | fpga_loader.c:310-341 | a successful write's actions are the poll's delays, then nCONFIG low, 1000 us, nCONFIG high, 1000 us, then only DATA0/DCLK actions; nCONFIG is driven exactly twice |
| Loader.ClockedState | fpga_loader.c:330-355 | the state of the clocking loop after n bits, as the protocol functions give it; a definition, whose consequences `ClockedStateFacts` states |
| Loader.ClockedStateFacts | fpga_loader.c:330-355 | what the loop leaves after n bits: the pointer advanced by n / 8, the bytes passed at 0, the byte under it shifted by n mod 8, the others unchanged, simple_dvo changed only on DATA0 and DCLK, and 3 * n new actions whose DATA0 levels are the first n stream bits |
| Loader.WriteActions | fpga_loader.c:310-355 | a successful write's actions are exactly the poll's delays, the reset pulse and the clocked bits, and DATA0 receives exactly the first n stream bits |
| Loader.WriteBitOrder | fpga_loader.c:308-346 | an accepted write that clocked n bits puts n levels on DATA0, and level k, for every k within the image, is bit k mod 8 of image byte k / 8 |
| Loader.FpgaLoader.constructor | fpga_loader.c:89-95 | the counter and the backups start at 0; the buffer has MAX_FIRMWARE_SIZE cells with the pointer at its start |
| Loader.FpgaLoader.SetDclk | fpga_loader.c:98-105 | DCLK bit 0x20000000 of simple_dvo is set; adds one DCLK-high action |
| Loader.FpgaLoader.ClearDclk | fpga_loader.c:107-114 | DCLK bit 0x20000000 of simple_dvo is cleared; adds one DCLK-low action |
| Loader.FpgaLoader.SetData | fpga_loader.c:116-123 | DATA0 bit 0x10000000 of simple_dvo is set; adds one DATA0-high action |
| Loader.FpgaLoader.ClearData | fpga_loader.c:125-132 | DATA0 bit 0x10000000 of simple_dvo is cleared; adds one DATA0-low action |
| Loader.FpgaLoader.SetConfig | fpga_loader.c:134-141 | nCONFIG bit 0x20 of wkup_dvo is set; adds one nCONFIG-high action |
| Loader.FpgaLoader.ClearConfig | fpga_loader.c:143-150 | nCONFIG bit 0x20 of wkup_dvo is cleared; adds one nCONFIG-low action |
| Loader.FpgaLoader.ReadDone | fpga_loader.c:152-155 | consumes one wkup_ival read and returns its CONF_DONE bit |
| Loader.FpgaLoader.ReadStatus | fpga_loader.c:157-160 | consumes one wkup_ival read and returns its nSTATUS bit |
| Loader.FpgaLoader.Udelay | fpga_loader.c:326-328 | a wait is recorded as a delay action |
| Loader.FpgaLoader.InitGpioFpga | fpga_loader.c:188-231 | the backups hold the old setup; the setup is reprogrammed; wkup_dvo gains the mux and nCONFIG bits; the actions are nCONFIG low, 50 us, nCONFIG high |
| Loader.FpgaLoader.SaveAndReprogram | fpga_loader.c:194-223 | every setup register is saved to its backup before it is reprogrammed, and the mux select is set |
| Loader.FpgaLoader.ExitGpioFpga | fpga_loader.c:233-250 | the mux select is cleared and the five setup registers take their saved values |
| Loader.FpgaLoader.InitThenExit | fpga_loader.c:379-404 | init followed by exit restores all five setup registers; the mux is back on the UART, nCONFIG is high, and every other wkup_dvo bit is as before |
| Loader.FpgaLoader.Open | fpga_loader.c:286-289 | the counter is reset to 0 and 0 is returned; the pointer is not touched |
| Loader.FpgaLoader.Write | fpga_loader.c:295-361 | the counter rises by one on every call; see the note below for the three outcomes |
| Loader.FpgaLoader.CopyIn | fpga_loader.c:308 | the image is copied to the buffer at the pointer |
| Loader.FpgaLoader.Configure | fpga_loader.c:310-359 | the poll, pulse and clocking part of `write`, with the same outcomes as `Write` once the image is copied |
| Loader.FpgaLoader.WaitForStatus | fpga_loader.c:310-319 | ready exactly when `FirstReady` finds a high read; takes p + 1 reads and p delays when it succeeds, and TIMEOUT + 1 reads and TIMEOUT delays when it times out |
| Loader.FpgaLoader.ClockOut | fpga_loader.c:330-355 | clocks exactly `ClockedBits` bits, with one CONF_DONE read per bit plus the stopping read, and leaves buffer, pointer, simple_dvo and trace as `ClockedState` describes |
| Loader.FpgaLoader.ClockStep | fpga_loader.c:331-354 | one iteration: on a high read it stops at exactly `ClockedBits` bits; otherwise it clocks one bit, and stops after bit 8 * size |
| Loader.FpgaLoader.ClockBit | fpga_loader.c:335-346 | one bit: DATA0 gets stream bit `bits`, DCLK is pulsed, the byte is shifted, and the pointer advances after every eighth bit |
| Loader.FpgaLoader.PulseBit | fpga_loader.c:335-341 | DATA0 is set to the bit, then DCLK goes high and then low |

`Write` has three outcomes:

- **Rejected by a guard.** It returns the guard's error, and nothing but the counter changes.
- **nSTATUS never high.** It returns -ENODEV. The image is in the buffer. It has made TIMEOUT + 1 reads and TIMEOUT one-microsecond delays, and no line is driven.
- **nSTATUS high after p failed reads.** It returns the size. The reset pulse comes next. Then `ClockedBits` bits are clocked, which leaves the state described by `ClockedState`.

## Left out

- Loader.FpgaLoader.Write: requires what the C code never checks. An accepted write must find room for the image at the current pointer. If it reaches the overrun bit, it must also find one more byte after the image, because there is no bounds check before the memcpy or before the overrun read. Two cases violate this in C:
  - Once earlier sessions have advanced the pointer, a large image overruns the 130000-byte allocation.
  - A 130000-byte image that reaches the overrun bit reads the byte one past the allocation and shifts it in place.
- Loader.FpgaLoader.Configure, Loader.FpgaLoader.ClockOut, Loader.FpgaLoader.CopyIn: carry the same room requirement as `Write`, for the same reason.
- Loader.FpgaLoader.CopyIn, Loader.FpgaLoader.Configure, Loader.FpgaLoader.WaitForStatus, Loader.FpgaLoader.ClockOut, Loader.FpgaLoader.ClockStep, Loader.FpgaLoader.ClockBit, Loader.FpgaLoader.PulseBit: pieces of `write` that are not separate functions in C. The pieces are: the memcpy at line 308; everything after it; the status poll; the clocking loop; one iteration of it; one clocked bit; and the DATA0/DCLK actions of a bit.
- Loader.FpgaLoader.SaveAndReprogram: the register part of `init_gpio_fpga` (lines 194-223), not a separate function in C.
- Loader.FpgaLoader.InitThenExit: the sequence `init_gpio_fpga`, then `exit_gpio_fpga` that `fpga_init` runs when registration fails (lines 379 and 403-404), not a separate function in C.
- Module registration and teardown are not modelled as code. This covers `fpga_init`, `fpga_exit`, `release`, the character-device, class and device calls, and the `fops` table. This is kernel plumbing: `release` only returns 0. The pin handling that `fpga_init` does on a registration failure is modelled as `InitThenExit`.
- Device-tree lookup and register mapping are replaced by plain fields. This covers `mpc52xx_find_and_map`, `map_resources`, `unmap_resources`, `ioremap` and `iounmap`.
- `kmalloc` and `kfree` are replaced by the constructor's array, whose initial contents are a parameter. The model does not cover that `fpga_exit` frees the advanced pointer rather than the allocated one.
- `udelay` is only a recorded delay action; no time passes in the model.
- `printk` diagnostics are left out, including the progress dot every 8192 bits. They are logging only.
- The `__user` copy semantics of the memcpy are left out. The image is a plain byte sequence.
- Concurrency is left out: the driver has no locking, and the model assumes one opener at a time.
- `number_of_writes` is an unbounded integer, so `int` wrap-around after 2^31 calls without an `open` is not modelled.
- Reads of wkup_ival are not trace events. They are counted by `ivalReads`, and which read sees what is fixed by the oracle `ival`.
