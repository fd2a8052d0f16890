/**
 * The loader's module state and its operations: the pin helpers, the
 * save/restore of the pin setup, and the `open`/`write` file operations
 * that run the passive-serial configuration.
 *
 * The class holds what the C module keeps in globals: the memory-mapped
 * GPIO registers (as plain fields), the five backup registers, the write
 * counter, the kmalloc'ed buffer and how far its pointer has advanced.
 * The input register wkup_ival is sampled from `ival`, the value it shows
 * at its n-th read, counted by `ivalReads`. The output actions performed
 * so far are recorded in the ghost `trace`.
 */
module Loader {
  import opened Registers
  import opened PassiveSerial

  /**
   * The state of the clocking loop after n bits, for a loop that started
   * with buffer b, pointer off0, simple_dvo dvo0 and trace tr0: the buffer
   * contents cur, the pointer off, simple_dvo dvo and the trace tr.
   */
  ghost predicate ClockedState(b: seq<bv8>, off0: nat, dvo0: bv32, tr0: seq<Event>, n: nat,
                               cur: seq<bv8>, off: nat, dvo: bv32, tr: seq<Event>)
  {
    Readable(b, off0, n) &&
    off == off0 + n / 8 &&
    cur == Shifted(b, off0, n) &&
    dvo == DvoAfter(dvo0, b, off0, n) &&
    tr == tr0 + BitsTrace(b, off0, n)
  }

  /**
   * What the clocking loop leaves after n bits: the pointer advanced by
   * n / 8, the bytes it moved past at zero, the byte under it shifted by
   * n mod 8, every other byte as it was; simple_dvo changed only on DATA0 and
   * DCLK, with DCLK low and DATA0 at the last bit; and 3 * n new actions
   * that put exactly the first n stream bits on DATA0.
   */
  lemma ClockedStateFacts(b: seq<bv8>, off0: nat, dvo0: bv32, tr0: seq<Event>, n: nat,
                          cur: seq<bv8>, off: nat, dvo: bv32, tr: seq<Event>)
    requires ClockedState(b, off0, dvo0, tr0, n, cur, off, dvo, tr)
    ensures off == off0 + n / 8 && |cur| == |b|
    ensures forall i :: off0 <= i < off && i < |b| ==> cur[i] == 0
    ensures off < |b| ==> cur[off] == ShiftN(b[off], n % 8)
    ensures forall i :: 0 <= i < |b| && (i < off0 || i > off) ==> cur[i] == b[i]
    ensures OtherLines(dvo) == OtherLines(dvo0)
    ensures n > 0 ==> off0 + (n - 1) / 8 < |b| && !DclkLine(dvo) && DataLine(dvo) == StreamBit(b, off0, n - 1)
    ensures |tr| == |tr0| + 3 * n && tr[..|tr0|] == tr0
    ensures DataLevels(tr[|tr0|..]) == StreamBits(b, off0, n)
  {
    ShiftedBuffer(b, off0, n);
    DvoAfterKeeps(dvo0, b, off0, n);
    if n > 0 {
      DvoAfterLast(dvo0, b, off0, n);
    }
    BitsTraceShape(b, off0, n);
    assert tr[|tr0|..] == BitsTrace(b, off0, n);
    DataLevelsOfBits(b, off0, n);
  }

  /**
   * The actions of a successful write, after those before it: the poll's
   * p delays, the nCONFIG pulse, then the clocked bits, which put exactly
   * the first n stream bits on DATA0.
   */
  lemma WriteActions(before: seq<Event>, p: nat, b: seq<bv8>, off0: nat, dvo0: bv32, n: nat,
                     cur: seq<bv8>, off: nat, dvo: bv32, tr: seq<Event>)
    requires ClockedState(b, off0, dvo0, before + Delays(p) + RESET_PULSE, n, cur, off, dvo, tr)
    ensures tr == before + ConfigureTrace(p, b, off0, n)
    ensures DataLevels(tr[|before| + p + 4..]) == StreamBits(b, off0, n)
  {
    assert tr[|before| + p + 4..] == BitsTrace(b, off0, n);
    DataLevelsOfBits(b, off0, n);
  }

  /**
   * The bit order of an accepted write whose image `data` was copied at the
   * pointer off and that clocked n bits: DATA0 receives n levels, and the
   * k-th of them, for every k within the image, is bit k mod 8 of image
   * byte k / 8, least significant bit first and in byte order.
   */
  lemma WriteBitOrder(b: seq<bv8>, off: nat, data: seq<bv8>, dvo0: bv32, tr0: seq<Event>, n: nat,
                      cur: seq<bv8>, o: nat, dvo: bv32, tr: seq<Event>)
    requires off + |data| <= |b|
    requires ClockedState(Copied(b, off, data), off, dvo0, tr0, n, cur, o, dvo, tr)
    ensures |tr| >= |tr0| && |DataLevels(tr[|tr0|..])| == n
    ensures forall k :: 0 <= k < n && k < 8 * |data| ==>
      DataLevels(tr[|tr0|..])[k] == BitOf(data[k / 8], k % 8)
  {
    var c := Copied(b, off, data);
    ClockedStateFacts(c, off, dvo0, tr0, n, cur, o, dvo, tr);
    var levels := DataLevels(tr[|tr0|..]);
    forall k | 0 <= k < n && k < 8 * |data|
      ensures levels[k] == BitOf(data[k / 8], k % 8)
    {
      CopiedStream(b, off, data, k);
    }
  }

  class FpgaLoader {
    // struct mpc52xx_gpio
    var portConfig: bv32
    var simpleGpioe: bv32
    var simpleDdr: bv32
    var simpleDvo: bv32
    // struct mpc52xx_gpio_wkup
    var wkupGpioe: bv8
    var wkupDdr: bv8
    var wkupDvo: bv8
    /** What wkup_ival reads at its n-th read: the FPGA's nSTATUS and CONF_DONE lines. */
    const ival: nat -> bv8
    var ivalReads: nat

    // the *_backup globals written by init_gpio_fpga
    var portConfigBackup: bv32
    var simpleGpioeBackup: bv32
    var simpleDdrBackup: bv32
    var wkupGpioeBackup: bv8
    var wkupDdrBackup: bv8

    var numberOfWrites: int
    /** The kmalloc'ed firmware buffer. */
    const buf: array<bv8>
    /**
     * How far the global `buf` pointer has been advanced into the allocation.
     * Nothing moves it back; `fpga_exit` later frees the advanced pointer
     * rather than the one kmalloc returned, which this model does not cover.
     */
    var offset: nat

    /** The output actions performed so far. */
    ghost var trace: seq<Event>

    ghost predicate Valid()
      reads this
    {
      buf.Length == MAX_FIRMWARE_SIZE && offset <= buf.Length && numberOfWrites >= 0
    }

    /** The five pin-setup registers. */
    ghost function Setup(): PinSetup
      reads this
    {
      PinSetup(portConfig, simpleGpioe, simpleDdr, wkupGpioe, wkupDdr)
    }

    /** The five backup registers. */
    ghost function Backup(): PinSetup
      reads this
    {
      PinSetup(portConfigBackup, simpleGpioeBackup, simpleDdrBackup, wkupGpioeBackup, wkupDdrBackup)
    }

    /**
     * The state once the module is loaded: the registers as the hardware
     * holds them, the counter and the backups zero as static globals are,
     * and a buffer of MAX_FIRMWARE_SIZE bytes whose contents are whatever
     * the allocator handed out.
     */
    constructor (setup: PinSetup, dvo: bv32, wdvo: bv8, ival: nat -> bv8, heap: seq<bv8>)
      requires |heap| == MAX_FIRMWARE_SIZE
      ensures Valid() && fresh(buf)
      ensures Setup() == setup && simpleDvo == dvo && wkupDvo == wdvo
      ensures this.ival == ival && ivalReads == 0
      ensures Backup() == PinSetup(0, 0, 0, 0, 0)
      ensures numberOfWrites == 0 && offset == 0 && buf[..] == heap && trace == []
    {
      portConfig, simpleGpioe, simpleDdr := setup.portConfig, setup.simpleGpioe, setup.simpleDdr;
      wkupGpioe, wkupDdr := setup.wkupGpioe, setup.wkupDdr;
      simpleDvo, wkupDvo := dvo, wdvo;
      this.ival := ival;
      ivalReads := 0;
      portConfigBackup, simpleGpioeBackup, simpleDdrBackup := 0, 0, 0;
      wkupGpioeBackup, wkupDdrBackup := 0, 0;
      numberOfWrites := 0;
      buf := new bv8[MAX_FIRMWARE_SIZE](i requires 0 <= i < MAX_FIRMWARE_SIZE => heap[i]);
      offset := 0;
      trace := [];
    }

    // -------------------------------------------------------------------------
    // Pin helpers
    // -------------------------------------------------------------------------

    method SetDclk()
      modifies this`simpleDvo, this`trace
      ensures simpleDvo == Set32(old(simpleDvo), DCLK_MASK)
      ensures trace == old(trace) + [Drive(Dclk, true)]
    {
      var data := simpleDvo;
      data := data | 0x2000_0000;
      simpleDvo := data;
      trace := trace + [Drive(Dclk, true)];
    }

    method ClearDclk()
      modifies this`simpleDvo, this`trace
      ensures simpleDvo == Clear32(old(simpleDvo), DCLK_MASK)
      ensures trace == old(trace) + [Drive(Dclk, false)]
    {
      var data := simpleDvo;
      data := data & !0x2000_0000;
      simpleDvo := data;
      trace := trace + [Drive(Dclk, false)];
    }

    method SetData()
      modifies this`simpleDvo, this`trace
      ensures simpleDvo == Set32(old(simpleDvo), DATA_MASK)
      ensures trace == old(trace) + [Drive(Data0, true)]
    {
      var data := simpleDvo;
      data := data | 0x1000_0000;
      simpleDvo := data;
      trace := trace + [Drive(Data0, true)];
    }

    method ClearData()
      modifies this`simpleDvo, this`trace
      ensures simpleDvo == Clear32(old(simpleDvo), DATA_MASK)
      ensures trace == old(trace) + [Drive(Data0, false)]
    {
      var data := simpleDvo;
      data := data & !0x1000_0000;
      simpleDvo := data;
      trace := trace + [Drive(Data0, false)];
    }

    method SetConfig()
      modifies this`wkupDvo, this`trace
      ensures wkupDvo == Set8(old(wkupDvo), CONFIG_MASK)
      ensures trace == old(trace) + [Drive(NConfig, true)]
    {
      var config := wkupDvo;
      config := config | 0x20;
      wkupDvo := config;
      trace := trace + [Drive(NConfig, true)];
    }

    method ClearConfig()
      modifies this`wkupDvo, this`trace
      ensures wkupDvo == Clear8(old(wkupDvo), CONFIG_MASK)
      ensures trace == old(trace) + [Drive(NConfig, false)]
    {
      var config := wkupDvo;
      config := config & !0x20;
      wkupDvo := config;
      trace := trace + [Drive(NConfig, false)];
    }

    method ReadDone() returns (high: bool)
      modifies this`ivalReads
      ensures ivalReads == old(ivalReads) + 1
      ensures high == DoneLine(ival(old(ivalReads)))
    {
      high := ival(ivalReads) & 0x10 != 0;
      ivalReads := ivalReads + 1;
    }

    method ReadStatus() returns (high: bool)
      modifies this`ivalReads
      ensures ivalReads == old(ivalReads) + 1
      ensures high == StatusLine(ival(old(ivalReads)))
    {
      high := ival(ivalReads) & 0x80 != 0;
      ivalReads := ivalReads + 1;
    }

    /** `udelay`: no time passes in the model, the wait is only recorded. */
    method Udelay(us: nat)
      modifies this`trace
      ensures trace == old(trace) + [Delay(us)]
    {
      trace := trace + [Delay(us)];
    }

    // -------------------------------------------------------------------------
    // Pin setup
    // -------------------------------------------------------------------------

    /**
     * `init_gpio_fpga`: save the five setup registers, reprogram them for the
     * FPGA lines, switch the multiplexer to the FPGA, and pulse nCONFIG
     * (low, 50 us, high).
     */
    method InitGpioFpga()
      modifies this`portConfig, this`simpleGpioe, this`simpleDdr, this`wkupGpioe, this`wkupDdr
      modifies this`wkupDvo, this`trace
      modifies this`portConfigBackup, this`simpleGpioeBackup, this`simpleDdrBackup
      modifies this`wkupGpioeBackup, this`wkupDdrBackup
      ensures Backup() == old(Setup())
      ensures Setup() == Reconfigured(old(Setup()))
      ensures wkupDvo == old(wkupDvo) | MUX_MASK | CONFIG_MASK
      ensures trace == old(trace) + [Drive(NConfig, false), Delay(50), Drive(NConfig, true)]
    {
      SaveAndReprogram();
      ghost var saved, setup, dvo := Backup(), Setup(), wkupDvo;
      // set nCONFIG low, wait 50 us, set it high again
      ClearConfig();
      Udelay(50);
      SetConfig();
      assert Backup() == saved && Setup() == setup;
      assert wkupDvo == Set8(Clear8(dvo, CONFIG_MASK), CONFIG_MASK);
    }

    /**
     * The register part of `init_gpio_fpga`: each setup register is read,
     * saved in its backup, and written back reprogrammed; then the
     * multiplexer select is set.
     */
    method SaveAndReprogram()
      modifies this`portConfig, this`simpleGpioe, this`simpleDdr, this`wkupGpioe, this`wkupDdr
      modifies this`wkupDvo
      modifies this`portConfigBackup, this`simpleGpioeBackup, this`simpleDdrBackup
      modifies this`wkupGpioeBackup, this`wkupDdrBackup
      ensures Backup() == old(Setup())
      ensures Setup() == Reconfigured(old(Setup()))
      ensures wkupDvo == Set8(old(wkupDvo), MUX_MASK)
    {
      var pc, gpioe, ddr := portConfig, simpleGpioe, simpleDdr;
      var wgpioe, wddr := wkupGpioe, wkupDdr;
      portConfigBackup, simpleGpioeBackup, simpleDdrBackup := pc, gpioe, ddr;
      wkupGpioeBackup, wkupDdrBackup := wgpioe, wddr;
      portConfig := Clear32(pc, 0x0070_0000);
      simpleGpioe := Set32(gpioe, 0x3000_0000);
      simpleDdr := Set32(ddr, 0x3000_0000);
      wkupGpioe := Set8(wgpioe, 0xF0);
      wkupDdr := Set8(Clear8(wddr, 0x90), 0x60);
      var wdvo := wkupDvo;
      wkupDvo := wdvo | 0x40;
    }

    /**
     * `exit_gpio_fpga`: switch the multiplexer back to the UART and write the
     * saved values back into the five setup registers.
     */
    method ExitGpioFpga()
      modifies this`portConfig, this`simpleGpioe, this`simpleDdr, this`wkupGpioe, this`wkupDdr
      modifies this`wkupDvo
      ensures Setup() == old(Backup())
      ensures wkupDvo == Clear8(old(wkupDvo), MUX_MASK)
    {
      var wdvo := wkupDvo;
      wdvo := wdvo & !0x40;
      wkupDvo := wdvo;

      wkupDdr := wkupDdrBackup;
      wkupGpioe := wkupGpioeBackup;
      simpleDdr := simpleDdrBackup;
      simpleGpioe := simpleGpioeBackup;
      portConfig := portConfigBackup;
    }

    /**
     * The pin handling of `fpga_init` when registering the device fails:
     * the pins are set up and the restore runs straight away. The five setup
     * registers end as they were, the multiplexer is back on the UART, and
     * nCONFIG is left high after its pulse.
     */
    method InitThenExit()
      modifies this`portConfig, this`simpleGpioe, this`simpleDdr, this`wkupGpioe, this`wkupDdr
      modifies this`wkupDvo, this`trace
      modifies this`portConfigBackup, this`simpleGpioeBackup, this`simpleDdrBackup
      modifies this`wkupGpioeBackup, this`wkupDdrBackup
      ensures Setup() == old(Setup())
      ensures wkupDvo & MUX_MASK == 0 && wkupDvo & CONFIG_MASK == CONFIG_MASK
      ensures wkupDvo & !(MUX_MASK | CONFIG_MASK) == old(wkupDvo) & !(MUX_MASK | CONFIG_MASK)
      ensures trace == old(trace) + [Drive(NConfig, false), Delay(50), Drive(NConfig, true)]
    {
      InitGpioFpga();
      ExitGpioFpga();
    }

    // -------------------------------------------------------------------------
    // File operations
    // -------------------------------------------------------------------------

    /** `open`: a new session; the buffer pointer is not reset. */
    method Open() returns (r: int)
      modifies this`numberOfWrites
      ensures numberOfWrites == 0 && r == 0
    {
      numberOfWrites := 0;
      r := 0;
    }

    /**
     * `write`: count the call, apply the size and single-write guards, copy
     * the image to the buffer pointer, wait for nSTATUS, pulse nCONFIG and
     * clock the image out on DATA0/DCLK until CONF_DONE or the overrun bit.
     *
     * The C code does not bound-check the buffer: a write that passes the
     * guards must find room for the image at the current pointer, and, if it
     * reaches the overrun bit, one more byte after it.
     */
    method Write(data: seq<bv8>) returns (r: int)
      requires Valid()
      requires Guard(numberOfWrites, |data|).None? ==>
        offset + |data| <= buf.Length &&
        (ReachesOverrun(ival, ivalReads, |data|) ==> offset + |data| < buf.Length)
      modifies this`numberOfWrites, this`offset, this`simpleDvo, this`wkupDvo, this`ivalReads, this`trace, buf
      ensures Valid()
      ensures numberOfWrites == old(numberOfWrites) + 1
      // rejected by a guard: nothing but the counter changes
      ensures Guard(old(numberOfWrites), |data|).Some? ==>
        r == Guard(old(numberOfWrites), |data|).value &&
        offset == old(offset) && buf[..] == old(buf[..]) && ivalReads == old(ivalReads) &&
        simpleDvo == old(simpleDvo) && wkupDvo == old(wkupDvo) && trace == old(trace)
      // nSTATUS never high: TIMEOUT + 1 reads, TIMEOUT delays, no line driven
      ensures Guard(old(numberOfWrites), |data|).None? && FirstReady(ival, old(ivalReads)).None? ==>
        r == -ENODEV &&
        ivalReads == old(ivalReads) + TIMEOUT + 1 &&
        trace == old(trace) + Delays(TIMEOUT) &&
        buf[..] == Copied(old(buf[..]), old(offset), data) && offset == old(offset) &&
        simpleDvo == old(simpleDvo) && wkupDvo == old(wkupDvo)
      // nSTATUS high after p failed reads: reset pulse, then n bits clocked
      ensures Guard(old(numberOfWrites), |data|).None? && FirstReady(ival, old(ivalReads)).Some? ==>
        var p := FirstReady(ival, old(ivalReads)).value;
        var n := ClockedBits(ival, old(ivalReads) + p + 1, |data|);
        r == |data| &&
        ivalReads == old(ivalReads) + p + 1 + DoneReads(n, |data|) &&
        wkupDvo == Set8(old(wkupDvo), CONFIG_MASK) &&
        ClockedState(Copied(old(buf[..]), old(offset), data), old(offset), old(simpleDvo),
                     old(trace) + Delays(p) + RESET_PULSE, n, buf[..], offset, simpleDvo, trace)
    {
      numberOfWrites := numberOfWrites + 1;
      if |data| > MAX_FIRMWARE_SIZE {
        return -EFBIG;
      }
      if numberOfWrites > 1 {
        return -EIO;
      }

      CopyIn(data);
      ghost var copied, nReads, dvo, tr := buf[..], ivalReads, simpleDvo, trace;
      assert copied == Copied(old(buf[..]), old(offset), data);
      assert nReads == old(ivalReads) && dvo == old(simpleDvo) && tr == old(trace) && offset == old(offset);
      r := Configure(|data|);
    }

    /** `memcpy(buf, data, file_size)`: the image replaces the bytes from the pointer on. */
    method CopyIn(data: seq<bv8>)
      requires offset + |data| <= buf.Length
      modifies buf
      ensures buf[..] == Copied(old(buf[..]), offset, data)
    {
      forall i | 0 <= i < |data| {
        buf[offset + i] := data[i];
      }
      CopiedBytes(old(buf[..]), offset, data);
    }

    /**
     * What `write` does once the image is in the buffer: wait for nSTATUS,
     * pulse nCONFIG, and clock the image out. The result is `write`'s.
     */
    method Configure(size: nat) returns (r: int)
      requires offset + size <= buf.Length
      requires ReachesOverrun(ival, ivalReads, size) ==> offset + size < buf.Length
      modifies this`offset, this`simpleDvo, this`wkupDvo, this`ivalReads, this`trace, buf
      ensures FirstReady(ival, old(ivalReads)).None? ==>
        r == -ENODEV &&
        ivalReads == old(ivalReads) + TIMEOUT + 1 &&
        trace == old(trace) + Delays(TIMEOUT) &&
        buf[..] == old(buf[..]) && offset == old(offset) &&
        simpleDvo == old(simpleDvo) && wkupDvo == old(wkupDvo)
      ensures FirstReady(ival, old(ivalReads)).Some? ==>
        var p := FirstReady(ival, old(ivalReads)).value;
        var n := ClockedBits(ival, old(ivalReads) + p + 1, size);
        r == size &&
        ivalReads == old(ivalReads) + p + 1 + DoneReads(n, size) &&
        wkupDvo == Set8(old(wkupDvo), CONFIG_MASK) &&
        ClockedState(old(buf[..]), old(offset), old(simpleDvo), old(trace) + Delays(p) + RESET_PULSE, n, buf[..], offset, simpleDvo, trace)
    {
      ghost var b := buf[..];
      var ready := WaitForStatus();
      if !ready {
        return -ENODEV;
      }

      // nCONFIG low, then high, to request a reconfiguration
      ClearConfig();
      Udelay(1000);
      SetConfig();
      Udelay(1000);
      ghost var p := FirstReady(ival, old(ivalReads)).value;
      assert buf[..] == b && offset == old(offset) && simpleDvo == old(simpleDvo);
      assert ivalReads == old(ivalReads) + p + 1;
      assert trace == old(trace) + Delays(p) + RESET_PULSE;

      var bitsTransferred := ClockOut(b, old(offset), old(simpleDvo), old(trace) + Delays(p) + RESET_PULSE, size);
      return size;
    }

    /**
     * The first loop of `write`: read nSTATUS until it is high, waiting 1 us
     * after each low read, and give up after the read made with no budget
     * left. True when nSTATUS was seen high.
     */
    method WaitForStatus() returns (ready: bool)
      modifies this`ivalReads, this`trace
      ensures ready == FirstReady(ival, old(ivalReads)).Some?
      ensures ready ==>
        ivalReads == old(ivalReads) + FirstReady(ival, old(ivalReads)).value + 1 &&
        trace == old(trace) + Delays(FirstReady(ival, old(ivalReads)).value)
      ensures !ready ==>
        ivalReads == old(ivalReads) + TIMEOUT + 1 &&
        trace == old(trace) + Delays(TIMEOUT)
    {
      var timeout := TIMEOUT;
      ghost var base := ivalReads;
      while true
        invariant 0 <= timeout <= TIMEOUT
        invariant ivalReads == base + (TIMEOUT - timeout)
        invariant forall j :: base <= j < base + (TIMEOUT - timeout) ==> !StatusLine(ival(j))
        invariant trace == old(trace) + Delays(TIMEOUT - timeout)
        decreases timeout
      {
        var status := ReadStatus();
        if status {
          FirstReadyAt(ival, base, TIMEOUT - timeout);
          return true;
        }
        if timeout <= 0 {
          FirstReadyNone(ival, base);
          return false;
        }
        timeout := timeout - 1;
        Udelay(1);
        assert trace == old(trace) + Delays(TIMEOUT - timeout);
      }
    }

    /**
     * One pass of the clocking loop's body after the CONF_DONE test: put the
     * low bit of the byte under the pointer on DATA0, pulse DCLK, shift that
     * byte right, count the bit and advance the pointer after every eighth.
     */
    method ClockBit(ghost b: seq<bv8>, ghost off0: nat, ghost dvo0: bv32, ghost tr0: seq<Event>, bits: nat)
      returns (next: nat)
      requires ClockedState(b, off0, dvo0, tr0, bits, buf[..], offset, simpleDvo, trace)
      requires off0 + bits / 8 < |b|
      modifies this`offset, this`simpleDvo, this`trace, buf
      ensures next == bits + 1
      ensures ClockedState(b, off0, dvo0, tr0, next, buf[..], offset, simpleDvo, trace)
    {
      PointerBit(b, off0, bits);
      ghost var s0 := buf[..];
      var bit := LowBit(buf[offset]);
      assert bit == StreamBit(b, off0, bits);
      PulseBit(bit);
      assert buf[..] == s0;
      buf[offset] := buf[offset] >> 1;
      assert buf[..] == Shifted(b, off0, bits + 1);
      next := bits + 1;
      if next % 8 == 0 {
        offset := offset + 1;
      }
      assert simpleDvo == DvoAfter(dvo0, b, off0, next);
      assert trace == tr0 + BitsTrace(b, off0, next);
    }

    /** Put a bit on DATA0 and pulse DCLK. */
    method PulseBit(bit: bool)
      modifies this`simpleDvo, this`trace
      ensures simpleDvo == ClockedDvo(old(simpleDvo), bit)
      ensures trace == old(trace) + [Drive(Data0, bit), Drive(Dclk, true), Drive(Dclk, false)]
    {
      if bit {
        SetData();
      } else {
        ClearData();
      }
      SetDclk();
      ClearDclk();
    }

    /**
     * The second loop of `write`: before each bit read CONF_DONE and stop if
     * it is high; otherwise clock out the next bit; stop once more than
     * 8 * size bits are out.
     */
    method ClockOut(ghost b: seq<bv8>, ghost off0: nat, ghost dvo0: bv32, ghost tr0: seq<Event>, size: nat)
      returns (bits: nat)
      requires b == buf[..] && off0 == offset && dvo0 == simpleDvo && tr0 == trace
      requires offset + size <= buf.Length
      requires ClockedBits(ival, ivalReads, size) > 8 * size ==> offset + size < buf.Length
      modifies this`offset, this`simpleDvo, this`ivalReads, this`trace, buf
      ensures bits == ClockedBits(ival, old(ivalReads), size)
      ensures ivalReads == old(ivalReads) + DoneReads(bits, size)
      ensures ClockedState(b, off0, dvo0, tr0, bits, buf[..], offset, simpleDvo, trace)
    {
      ghost var base := ivalReads;
      bits := 0;
      var stop := false;
      while !stop
        invariant 0 <= bits <= 8 * size + 1
        invariant ClockedState(b, off0, dvo0, tr0, bits, buf[..], offset, simpleDvo, trace)
        invariant !stop ==>
          bits <= 8 * size && ivalReads == base + bits &&
          ClockedBits(ival, base, size) == FirstDoneHigh(ival, base + bits, base + 8 * size) - base
        invariant stop ==> bits == ClockedBits(ival, base, size) && ivalReads == base + DoneReads(bits, size)
        decreases 8 * size + 1 - bits, !stop
      {
        stop, bits := ClockStep(b, off0, dvo0, tr0, base, size, bits);
      }
    }

    /**
     * One iteration of the clocking loop after `bits` bits: read CONF_DONE and
     * stop if it is high, otherwise clock the next bit, and stop if that was
     * bit number 8 * size.
     */
    method ClockStep(ghost b: seq<bv8>, ghost off0: nat, ghost dvo0: bv32, ghost tr0: seq<Event>,
                     ghost base: nat, size: nat, bits: nat)
      returns (stop: bool, next: nat)
      requires off0 + size <= |b|
      requires ClockedBits(ival, base, size) > 8 * size ==> off0 + size < |b|
      requires bits <= 8 * size && ivalReads == base + bits
      requires ClockedBits(ival, base, size) == FirstDoneHigh(ival, base + bits, base + 8 * size) - base
      requires ClockedState(b, off0, dvo0, tr0, bits, buf[..], offset, simpleDvo, trace)
      modifies this`offset, this`simpleDvo, this`ivalReads, this`trace, buf
      ensures ClockedState(b, off0, dvo0, tr0, next, buf[..], offset, simpleDvo, trace)
      ensures !stop ==>
        next == bits + 1 && next <= 8 * size && ivalReads == base + next &&
        ClockedBits(ival, base, size) == FirstDoneHigh(ival, base + next, base + 8 * size) - base
      ensures stop ==> next == ClockedBits(ival, base, size) && ivalReads == base + DoneReads(next, size)
    {
      var confDone := ReadDone();
      if confDone {
        return true, bits;
      }
      ghost var rest := FirstDoneHigh(ival, base + bits + 1, base + 8 * size);
      assert FirstDoneHigh(ival, base + bits, base + 8 * size) == rest;
      next := ClockBit(b, off0, dvo0, tr0, bits);
      stop := next > size * 8;
    }
  }
}
