/**
 * Register-level view of the MPC5200 GPIO blocks the loader drives.
 *
 * The general GPIO block (`simple_*`, `port_config`) is 32 bits wide, the
 * wake-up GPIO block (`wkup_*`) 8 bits wide. Every pin helper of the loader
 * is a read-modify-write of one register that touches one mask bit; the
 * functions here are those register updates, each with the statement of
 * which bits it changes and which it keeps.
 */
module Registers {

  /** DCLK is driven by bit 0x20000000 of simple_dvo (PSC6_3). */
  const DCLK_MASK: bv32 := 0x2000_0000
  /** DATA0 is driven by bit 0x10000000 of simple_dvo (PSC6_2). */
  const DATA_MASK: bv32 := 0x1000_0000
  /** nCONFIG is driven by bit 0x20 of wkup_dvo (GPIO_WKUP_5). */
  const CONFIG_MASK: bv8 := 0x20
  /** The UART/FPGA multiplexer is switched by bit 0x40 of wkup_dvo (GPIO_WKUP_6). */
  const MUX_MASK: bv8 := 0x40
  /** CONF_DONE is sensed on bit 0x10 of wkup_ival (GPIO_WKUP_4). */
  const DONE_MASK: bv8 := 0x10
  /** nSTATUS is sensed on bit 0x80 of wkup_ival (GPIO_WKUP_7). */
  const STATUS_MASK: bv8 := 0x80
  /** The port_config field that routes PSC6 (IrDA) to its UART function. */
  const IRDA_PORT_MASK: bv32 := 0x0070_0000

  /** `x |= m` on a 32-bit register: the mask bits become 1, the others stay. */
  function Set32(x: bv32, m: bv32): (r: bv32)
    ensures r & m == m
    ensures r & !m == x & !m
  {
    x | m
  }

  /** `x &= ~m` on a 32-bit register: the mask bits become 0, the others stay. */
  function Clear32(x: bv32, m: bv32): (r: bv32)
    ensures r & m == 0
    ensures r & !m == x & !m
  {
    x & !m
  }

  /** `x |= m` on an 8-bit register. */
  function Set8(x: bv8, m: bv8): (r: bv8)
    ensures r & m == m
    ensures r & !m == x & !m
  {
    x | m
  }

  /** `x &= ~m` on an 8-bit register. */
  function Clear8(x: bv8, m: bv8): (r: bv8)
    ensures r & m == 0
    ensures r & !m == x & !m
  {
    x & !m
  }

  /** `read_done`: CONF_DONE is high when bit 4 of the sampled wkup_ival is set. */
  function DoneLine(ival: bv8): (high: bool)
    ensures high <==> (ival >> 4) & 1 == 1
  {
    ival & DONE_MASK != 0
  }

  /** `read_status`: nSTATUS is high when bit 7 (the top bit) of the sampled wkup_ival is set. */
  function StatusLine(ival: bv8): (high: bool)
    ensures high <==> ival >> 7 == 1
  {
    ival & STATUS_MASK != 0
  }

  /**
   * The level the loader puts on DATA0: `set_data` when the bit is 1,
   * `clear_data` when it is 0.
   */
  function DriveData(dvo: bv32, level: bool): (r: bv32)
    ensures (r & DATA_MASK != 0) == level
    ensures r & !DATA_MASK == dvo & !DATA_MASK
  {
    if level then Set32(dvo, DATA_MASK) else Clear32(dvo, DATA_MASK)
  }

  /**
   * The pin-multiplexing and direction registers that `init_gpio_fpga`
   * reprograms and saves, and that `exit_gpio_fpga` restores.
   */
  datatype PinSetup = PinSetup(
    portConfig: bv32,
    simpleGpioe: bv32,
    simpleDdr: bv32,
    wkupGpioe: bv8,
    wkupDdr: bv8)

  /**
   * What `init_gpio_fpga` writes into the five setup registers, given what
   * they held before: PSC6 is taken away from the UART, DCLK and DATA0 become
   * GPIO outputs, the four wake-up pins become GPIOs with nSTATUS and
   * CONF_DONE as inputs and nCONFIG and the multiplexer select as outputs.
   * All other bits keep their previous values.
   */
  function Reconfigured(s: PinSetup): (t: PinSetup)
  {
    PinSetup(
      Clear32(s.portConfig, 0x0070_0000),
      Set32(s.simpleGpioe, 0x3000_0000),
      Set32(s.simpleDdr, 0x3000_0000),
      Set8(s.wkupGpioe, 0xF0),
      Set8(Clear8(s.wkupDdr, 0x90), 0x60))
  }

  /** Which bits `Reconfigured` forces, and that it keeps every other bit. */
  lemma ReconfiguredPins(s: PinSetup)
    ensures var t := Reconfigured(s);
      t.portConfig & IRDA_PORT_MASK == 0 &&
      t.portConfig & !IRDA_PORT_MASK == s.portConfig & !IRDA_PORT_MASK &&
      t.simpleGpioe & (DCLK_MASK | DATA_MASK) == DCLK_MASK | DATA_MASK &&
      t.simpleGpioe & !(DCLK_MASK | DATA_MASK) == s.simpleGpioe & !(DCLK_MASK | DATA_MASK) &&
      t.simpleDdr & (DCLK_MASK | DATA_MASK) == DCLK_MASK | DATA_MASK &&
      t.simpleDdr & !(DCLK_MASK | DATA_MASK) == s.simpleDdr & !(DCLK_MASK | DATA_MASK) &&
      t.wkupGpioe & (CONFIG_MASK | MUX_MASK | DONE_MASK | STATUS_MASK) == CONFIG_MASK | MUX_MASK | DONE_MASK | STATUS_MASK &&
      t.wkupGpioe & 0x0F == s.wkupGpioe & 0x0F &&
      t.wkupDdr & (DONE_MASK | STATUS_MASK) == 0 &&
      t.wkupDdr & (CONFIG_MASK | MUX_MASK) == CONFIG_MASK | MUX_MASK &&
      t.wkupDdr & 0x0F == s.wkupDdr & 0x0F
  {
  }

  /** The level simple_dvo drives on DATA0. */
  function DataLine(dvo: bv32): (r: bool)
  {
    dvo & DATA_MASK != 0
  }

  /** The level simple_dvo drives on DCLK. */
  function DclkLine(dvo: bv32): (r: bool)
  {
    dvo & DCLK_MASK != 0
  }

  /** The bits of simple_dvo other than DATA0 and DCLK. */
  function OtherLines(dvo: bv32): (r: bv32)
  {
    dvo & !(DATA_MASK | DCLK_MASK)
  }

  /**
   * simple_dvo after one clocked bit: DATA0 set to the level (`set_data` or
   * `clear_data`), then DCLK pulsed (`set_dclk`, `clear_dclk`). DATA0 holds
   * the level, DCLK is low again, and no other bit changed.
   */
  function ClockedDvo(dvo: bv32, level: bool): (r: bv32)
    ensures OtherLines(r) == OtherLines(dvo)
    ensures !DclkLine(r)
    ensures DataLine(r) == level
  {
    Clear32(Set32(DriveData(dvo, level), DCLK_MASK), DCLK_MASK)
  }
}
