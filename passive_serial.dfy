/**
 * The passive-serial configuration protocol of the loader, as values: the
 * guards of a write, the nSTATUS poll, the number of bits the clocking loop
 * shifts out, the bit stream it puts on DATA0, what it leaves in the buffer,
 * and the sequence of output actions it performs. The imperative driver in
 * loader.dfy is proved to behave as these functions say; the lemmas here
 * state what the protocol guarantees about them.
 */
module PassiveSerial {
  import opened Registers

  /** Poll budget for nSTATUS, in one-microsecond steps. */
  const TIMEOUT: nat := 20000
  /** Largest bitstream one write accepts, and the size of the kmalloc'ed buffer. */
  const MAX_FIRMWARE_SIZE: nat := 130000

  /** Linux error numbers returned (negated) by `write`. */
  const EIO: int := 5
  const ENODEV: int := 19
  const EFBIG: int := 27

  datatype Option<T> = None | Some(value: T)

  /** The three output lines the loader drives. */
  datatype Pin = NConfig | Data0 | Dclk

  /** One output action: a line driven to a level, or a busy wait of `us` microseconds. */
  datatype Event = Drive(pin: Pin, high: bool) | Delay(us: nat)

  // ---------------------------------------------------------------------------
  // Session discipline
  // ---------------------------------------------------------------------------

  /**
   * The two guards at the top of `write`, given the counter value `writes`
   * before this call's increment: None when the write goes ahead, otherwise
   * the (negative) value it returns. The size check comes first.
   */
  function Guard(writes: int, size: nat): (r: Option<int>)
    ensures size > MAX_FIRMWARE_SIZE ==> r == Some(-EFBIG)
    ensures r.None? <==> size <= MAX_FIRMWARE_SIZE && writes <= 0
    ensures r.Some? ==> r.value == -EFBIG || r.value == -EIO
  {
    if size > MAX_FIRMWARE_SIZE then Some(-EFBIG)
    else if writes + 1 > 1 then Some(-EIO)
    else None
  }

  /**
   * The guard outcomes of successive writes of the given sizes, starting with
   * the counter at `writes`. Every write increments the counter, whatever
   * its outcome.
   */
  function SessionGuards(writes: int, sizes: seq<nat>): (gs: seq<Option<int>>)
    ensures |gs| == |sizes|
    decreases |sizes|
  {
    if sizes == [] then [] else [Guard(writes, sizes[0])] + SessionGuards(writes + 1, sizes[1..])
  }

  /** The i-th write of a run sees the counter advanced by i. */
  lemma {:induction false} SessionGuardsAt(writes: int, sizes: seq<nat>, i: nat)
    requires i < |sizes|
    ensures SessionGuards(writes, sizes)[i] == Guard(writes + i, sizes[i])
    decreases i
  {
    if i > 0 {
      SessionGuardsAt(writes + 1, sizes[1..], i - 1);
    }
  }

  /**
   * After `open` (counter 0), an oversize write fails with -EFBIG wherever it
   * comes; the first write of the session passes the guards when it is not
   * oversize; every later write that is not oversize fails with -EIO, even
   * when the first write was rejected as oversize.
   */
  lemma OneWritePerSession(sizes: seq<nat>)
    ensures forall i :: 0 <= i < |sizes| ==>
      SessionGuards(0, sizes)[i] ==
        if sizes[i] > MAX_FIRMWARE_SIZE then Some(-EFBIG)
        else if i == 0 then None
        else Some(-EIO)
  {
    forall i | 0 <= i < |sizes|
      ensures SessionGuards(0, sizes)[i] ==
        if sizes[i] > MAX_FIRMWARE_SIZE then Some(-EFBIG)
        else if i == 0 then None
        else Some(-EIO)
    {
      SessionGuardsAt(0, sizes, i);
    }
  }

  // ---------------------------------------------------------------------------
  // Waiting for nSTATUS
  // ---------------------------------------------------------------------------

  /**
   * Among the wkup_ival reads numbered j..last, the first one that sees
   * nSTATUS high, or None when none does.
   */
  function FirstStatusHigh(ival: nat -> bv8, j: nat, last: nat): (r: Option<nat>)
    requires j <= last + 1
    ensures r.Some? ==> j <= r.value <= last && StatusLine(ival(r.value))
    decreases last + 1 - j
  {
    if j > last then None
    else if StatusLine(ival(j)) then Some(j)
    else FirstStatusHigh(ival, j + 1, last)
  }

  /** No read before the one FirstStatusHigh finds is high, and it finds none exactly when all are low. */
  lemma {:induction false} FirstStatusHighIsFirst(ival: nat -> bv8, j: nat, last: nat)
    requires j <= last + 1
    ensures FirstStatusHigh(ival, j, last).Some? ==>
      forall i :: j <= i < FirstStatusHigh(ival, j, last).value ==> !StatusLine(ival(i))
    ensures FirstStatusHigh(ival, j, last).None? <==>
      forall i :: j <= i <= last ==> !StatusLine(ival(i))
    decreases last + 1 - j
  {
    if j <= last && !StatusLine(ival(j)) {
      FirstStatusHighIsFirst(ival, j + 1, last);
    }
  }

  /**
   * The poll loop of a write whose first status read is read number base:
   * it reads at most TIMEOUT + 1 times. The number of low reads before the
   * first high one, or None when all TIMEOUT + 1 reads are low.
   */
  function FirstReady(ival: nat -> bv8, base: nat): (r: Option<nat>)
    ensures r.Some? ==> r.value <= TIMEOUT && StatusLine(ival(base + r.value))
  {
    match FirstStatusHigh(ival, base, base + TIMEOUT)
    case None => None
    case Some(j) => Some(j - base)
  }

  /** The poll succeeds after p low reads exactly when reads base .. base + p - 1 are low and read base + p is high. */
  lemma FirstReadyAt(ival: nat -> bv8, base: nat, p: nat)
    requires p <= TIMEOUT
    ensures FirstReady(ival, base) == Some(p) <==>
      (forall i :: base <= i < base + p ==> !StatusLine(ival(i))) && StatusLine(ival(base + p))
  {
    FirstStatusHighIsFirst(ival, base, base + TIMEOUT);
    var r := FirstStatusHigh(ival, base, base + TIMEOUT);
    if (forall i :: base <= i < base + p ==> !StatusLine(ival(i))) && StatusLine(ival(base + p)) {
      assert r.Some?;
      assert r.value == base + p;
    }
  }

  /** The poll times out exactly when all TIMEOUT + 1 reads are low. */
  lemma FirstReadyNone(ival: nat -> bv8, base: nat)
    ensures FirstReady(ival, base).None? <==> forall i :: base <= i <= base + TIMEOUT ==> !StatusLine(ival(i))
  {
    FirstStatusHighIsFirst(ival, base, base + TIMEOUT);
  }

  /** The delays the poll loop performs: one microsecond after each failed read that still had budget. */
  function Delays(k: nat): (t: seq<Event>)
    ensures |t| == k
    ensures forall i :: 0 <= i < k ==> t[i] == Delay(1)
  {
    seq(k, _ => Delay(1))
  }

  /** The reconfiguration request: nCONFIG low for 1000 us, then high for 1000 us. */
  const RESET_PULSE: seq<Event> :=
    [Drive(NConfig, false), Delay(1000), Drive(NConfig, true), Delay(1000)]

  // ---------------------------------------------------------------------------
  // Clocking the bitstream
  // ---------------------------------------------------------------------------

  /**
   * Among the wkup_ival reads numbered j..last, the first one that sees
   * CONF_DONE high, or last + 1 when none does.
   */
  function FirstDoneHigh(ival: nat -> bv8, j: nat, last: nat): (r: nat)
    requires j <= last + 1
    ensures j <= r <= last + 1
    ensures r <= last ==> DoneLine(ival(r))
    decreases last + 1 - j
  {
    if j > last then j
    else if DoneLine(ival(j)) then j
    else FirstDoneHigh(ival, j + 1, last)
  }

  /** No read before the one FirstDoneHigh stops at is high. */
  lemma {:induction false} FirstDoneHighIsFirst(ival: nat -> bv8, j: nat, last: nat)
    requires j <= last + 1
    ensures forall i :: j <= i < FirstDoneHigh(ival, j, last) ==> !DoneLine(ival(i))
    decreases last + 1 - j
  {
    if j <= last && !DoneLine(ival(j)) {
      FirstDoneHighIsFirst(ival, j + 1, last);
    }
  }

  /**
   * The clocking loop of a write of `size` bytes, whose first CONF_DONE read
   * is read number base: it reads CONF_DONE before each bit, clocks a bit
   * after each low read, and stops at the first high read or once it has
   * clocked 8 * size + 1 bits. The number of bits it clocks.
   */
  function ClockedBits(ival: nat -> bv8, base: nat, size: nat): (n: nat)
    ensures n <= 8 * size + 1
    ensures n <= 8 * size ==> DoneLine(ival(base + n))
  {
    FirstDoneHigh(ival, base, base + 8 * size) - base
  }

  /**
   * The loop clocks k bits exactly when the first k CONF_DONE reads are low
   * and either the next one is high or k is the overrun bound 8 * size + 1.
   */
  lemma ClockedBitsAt(ival: nat -> bv8, base: nat, size: nat, k: nat)
    requires k <= 8 * size + 1
    ensures ClockedBits(ival, base, size) == k <==>
      (forall i :: base <= i < base + k ==> !DoneLine(ival(i))) &&
      (k <= 8 * size ==> DoneLine(ival(base + k)))
  {
    FirstDoneHighIsFirst(ival, base, base + 8 * size);
    var n := ClockedBits(ival, base, size);
    if (forall i :: base <= i < base + k ==> !DoneLine(ival(i))) && (k <= 8 * size ==> DoneLine(ival(base + k))) {
      assert n == k;
    }
  }

  /**
   * How many CONF_DONE reads the loop takes to clock n bits: one per bit,
   * plus the final high read when it stopped on CONF_DONE rather than on the
   * overrun bound.
   */
  function DoneReads(n: nat, size: nat): (r: nat)
  {
    if n <= 8 * size then n + 1 else n
  }

  /**
   * Whether a write of `size` bytes, whose poll starts at read `base`, gets
   * as far as the overrun bit (bit 8 * size, which reads the byte after the
   * copied data).
   */
  predicate ReachesOverrun(ival: nat -> bv8, base: nat, size: nat)
  {
    match FirstReady(ival, base)
    case None => false
    case Some(p) => ClockedBits(ival, base + p + 1, size) > 8 * size
  }

  /** `x` shifted right by one, s times (`x >>= 1` in a loop). */
  function ShiftN(x: bv8, s: nat): (r: bv8)
  {
    if s == 0 then x else ShiftN(x, s - 1) >> 1
  }

  /** Eight shifts clock a byte out completely. */
  lemma ShiftedOut(x: bv8, s: nat)
    requires s >= 8
    ensures ShiftN(x, s) == 0
  {
    if s > 8 {
      ShiftedOut(x, s - 1);
    } else {
      ShiftSteps(x);
    }
  }

  /** Bit j of a byte, counted from the least significant. */
  function BitOf(x: bv8, j: nat): (r: bool)
  {
    LowBit(ShiftN(x, j))
  }

  /** The least significant bit of a byte. */
  function LowBit(x: bv8): (r: bool)
  {
    x & 1 == 1
  }

  /** The mask of bit j of a byte. */
  function Mask(j: nat): (r: bv8)
    requires j < 8
  {
    [0x01, 0x02, 0x04, 0x08, 0x10, 0x20, 0x40, 0x80][j]
  }

  /** BitOf agrees with testing the bit's mask: bit 0 is 0x01, bit 7 is 0x80. */
  lemma BitOfMask(x: bv8, j: nat)
    requires j < 8
    ensures BitOf(x, j) == (x & Mask(j) != 0)
  {
    ShiftSteps(x);
  }

  /** The first eight shifts of x, spelled out. */
  lemma ShiftSteps(x: bv8)
    ensures ShiftN(x, 1) == x >> 1
    ensures ShiftN(x, 2) == (x >> 1) >> 1
    ensures ShiftN(x, 3) == ((x >> 1) >> 1) >> 1
    ensures ShiftN(x, 4) == (((x >> 1) >> 1) >> 1) >> 1
    ensures ShiftN(x, 5) == ((((x >> 1) >> 1) >> 1) >> 1) >> 1
    ensures ShiftN(x, 6) == (((((x >> 1) >> 1) >> 1) >> 1) >> 1) >> 1
    ensures ShiftN(x, 7) == ((((((x >> 1) >> 1) >> 1) >> 1) >> 1) >> 1) >> 1
    ensures ShiftN(x, 8) == (((((((x >> 1) >> 1) >> 1) >> 1) >> 1) >> 1) >> 1) >> 1
  {
    assert ShiftN(x, 1) == ShiftN(x, 0) >> 1;
    assert ShiftN(x, 2) == ShiftN(x, 1) >> 1;
    assert ShiftN(x, 3) == ShiftN(x, 2) >> 1;
    assert ShiftN(x, 4) == ShiftN(x, 3) >> 1;
    assert ShiftN(x, 5) == ShiftN(x, 4) >> 1;
    assert ShiftN(x, 6) == ShiftN(x, 5) >> 1;
    assert ShiftN(x, 7) == ShiftN(x, 6) >> 1;
    assert ShiftN(x, 8) == ShiftN(x, 7) >> 1;
  }

  /**
   * The k-th bit (from 0) the loop puts on DATA0 when the buffer holds b and
   * the pointer starts at off: bit k mod 8 of byte off + k / 8.
   */
  function StreamBit(b: seq<bv8>, off: nat, k: nat): (r: bool)
    requires off + k / 8 < |b|
  {
    BitOf(b[off + k / 8], k % 8)
  }

  /** The bytes of the buffer that the first n bits come from are all present. */
  predicate Readable(b: seq<bv8>, off: nat, n: nat)
  {
    n == 0 || off + (n - 1) / 8 < |b|
  }

  /** Every bit before the n-th comes from a byte that is present. */
  lemma ReadableBelow(b: seq<bv8>, off: nat, n: nat, k: nat)
    requires Readable(b, off, n) && k < n
    ensures off + k / 8 < |b|
  {
    assert k / 8 <= (n - 1) / 8;
  }

  /** `memcpy(buf, data, size)` with the pointer at off: data replaces the bytes from off on. */
  function Copied(b: seq<bv8>, off: nat, data: seq<bv8>): (r: seq<bv8>)
    requires off + |data| <= |b|
    ensures |r| == |b|
  {
    b[..off] + data + b[off + |data|..]
  }

  /** The bytes from off on are the data's, every other byte is unchanged. */
  lemma CopiedBytes(b: seq<bv8>, off: nat, data: seq<bv8>)
    requires off + |data| <= |b|
    ensures forall i :: 0 <= i < |data| ==> Copied(b, off, data)[off + i] == data[i]
    ensures forall i :: 0 <= i < |b| && (i < off || i >= off + |data|) ==> Copied(b, off, data)[i] == b[i]
  {
    var r := Copied(b, off, data);
    forall i | 0 <= i < |data|
      ensures r[off + i] == data[i]
    {
      assert r[off + i] == (b[..off] + data)[off + i];
    }
  }

  /**
   * The first 8 * size bits of the stream are the copied data, in byte order
   * and least significant bit first.
   */
  lemma CopiedStream(b: seq<bv8>, off: nat, data: seq<bv8>, k: nat)
    requires off + |data| <= |b|
    requires k < 8 * |data|
    ensures off + k / 8 < |b|
    ensures StreamBit(Copied(b, off, data), off, k) == BitOf(data[k / 8], k % 8)
  {
    assert k / 8 < |data|;
    CopiedBytes(b, off, data);
    assert Copied(b, off, data)[off + k / 8] == data[k / 8];
  }

  /**
   * The overrun bit, number 8 * size, is bit 0 of the byte that follows the
   * copied data: a byte the write did not supply.
   */
  lemma OverrunBitIsStale(b: seq<bv8>, off: nat, data: seq<bv8>)
    requires off + |data| < |b|
    ensures StreamBit(Copied(b, off, data), off, 8 * |data|) == BitOf(b[off + |data|], 0)
  {
    assert (8 * |data|) / 8 == |data|;
    CopiedBytes(b, off, data);
    assert Copied(b, off, data)[off + |data|] == b[off + |data|];
  }

  /**
   * The buffer after n bits were clocked from the pointer off: each clocked
   * bit shifts the byte it came from right by one.
   */
  function Shifted(b: seq<bv8>, off: nat, n: nat): (r: seq<bv8>)
    requires Readable(b, off, n)
    ensures |r| == |b|
  {
    if n == 0 then b
    else
      assert Readable(b, off, n - 1);
      var s := Shifted(b, off, n - 1);
      s[off + (n - 1) / 8 := s[off + (n - 1) / 8] >> 1]
  }

  /**
   * After n bits, the n / 8 bytes clocked out completely read 0, the byte at
   * the advanced pointer is shifted by n mod 8, and no other byte changed.
   */
  lemma ShiftedBuffer(b: seq<bv8>, off: nat, n: nat)
    requires Readable(b, off, n)
    ensures forall i :: off <= i < off + n / 8 && i < |b| ==> Shifted(b, off, n)[i] == 0
    ensures off + n / 8 < |b| ==> Shifted(b, off, n)[off + n / 8] == ShiftN(b[off + n / 8], n % 8)
    ensures forall i :: 0 <= i < |b| && (i < off || i > off + n / 8) ==> Shifted(b, off, n)[i] == b[i]
  {
    ShiftedConsumed(b, off, n);
    ShiftedPointer(b, off, n);
    ShiftedOthers(b, off, n);
  }

  /** One more bit shifts the byte under the pointer of the bit before it right by one. */
  lemma ShiftedLast(b: seq<bv8>, off: nat, n: nat)
    requires n > 0 && Readable(b, off, n)
    ensures Readable(b, off, n - 1)
    ensures var cur := off + (n - 1) / 8;
      cur < |b| &&
      Shifted(b, off, n) == Shifted(b, off, n - 1)[cur := Shifted(b, off, n - 1)[cur] >> 1]
  {
    assert Readable(b, off, n - 1);
  }

  /** Bytes before the pointer and beyond the byte under it are untouched. */
  lemma {:induction false} ShiftedOthers(b: seq<bv8>, off: nat, n: nat)
    requires Readable(b, off, n)
    ensures forall i :: 0 <= i < |b| && (i < off || i > off + n / 8) ==> Shifted(b, off, n)[i] == b[i]
  {
    if n > 0 {
      ShiftedLast(b, off, n);
      ShiftedOthers(b, off, n - 1);
      assert (n - 1) / 8 <= n / 8;
    }
  }

  /** The byte under the advanced pointer is shifted by n mod 8. */
  lemma {:induction false} ShiftedPointer(b: seq<bv8>, off: nat, n: nat)
    requires Readable(b, off, n)
    ensures off + n / 8 < |b| ==> Shifted(b, off, n)[off + n / 8] == ShiftN(b[off + n / 8], n % 8)
  {
    if n > 0 && off + n / 8 < |b| {
      if n % 8 == 0 {
        ShiftedNextByte(b, off, n);
      } else {
        assert Readable(b, off, n - 1);
        ShiftedPointer(b, off, n - 1);
        ShiftedSameByte(b, off, n);
      }
    }
  }

  /** After a multiple of 8 bits the pointer is on a byte no bit came from yet. */
  lemma ShiftedNextByte(b: seq<bv8>, off: nat, n: nat)
    requires n > 0 && n % 8 == 0 && off + n / 8 < |b|
    ensures Readable(b, off, n)
    ensures Shifted(b, off, n)[off + n / 8] == ShiftN(b[off + n / 8], n % 8)
  {
    assert n / 8 == (n - 1) / 8 + 1;
    ShiftedLast(b, off, n);
    ShiftedOthers(b, off, n - 1);
    var next := off + n / 8;
    assert Shifted(b, off, n)[next] == Shifted(b, off, n - 1)[next] == b[next] == ShiftN(b[next], 0);
  }

  /** Within a byte, one more bit shifts the byte under the pointer once more. */
  lemma ShiftedSameByte(b: seq<bv8>, off: nat, n: nat)
    requires n > 0 && n % 8 != 0 && Readable(b, off, n)
    requires Readable(b, off, n - 1)
    requires off + (n - 1) / 8 < |b| ==>
      Shifted(b, off, n - 1)[off + (n - 1) / 8] == ShiftN(b[off + (n - 1) / 8], (n - 1) % 8)
    ensures off + n / 8 < |b|
    ensures Shifted(b, off, n)[off + n / 8] == ShiftN(b[off + n / 8], n % 8)
  {
    assert n / 8 == (n - 1) / 8 && n % 8 == (n - 1) % 8 + 1;
    ShiftedLast(b, off, n);
    var cur := off + n / 8;
    var before := Shifted(b, off, n - 1);
    assert before[cur] == ShiftN(b[cur], (n - 1) % 8);
    assert Shifted(b, off, n)[cur] == before[cur] >> 1 == ShiftN(b[cur], n % 8);
  }

  /** Every byte the pointer has moved past has been shifted to zero. */
  lemma {:induction false} ShiftedConsumed(b: seq<bv8>, off: nat, n: nat)
    requires Readable(b, off, n)
    ensures forall i :: off <= i < off + n / 8 && i < |b| ==> Shifted(b, off, n)[i] == 0
  {
    if n > 0 {
      ShiftedLast(b, off, n);
      ShiftedConsumed(b, off, n - 1);
      var cur := off + (n - 1) / 8;
      var before := Shifted(b, off, n - 1);
      if n % 8 == 0 {
        assert n / 8 == (n - 1) / 8 + 1 && (n - 1) % 8 == 7;
        ShiftedPointer(b, off, n - 1);
        assert before[cur] == ShiftN(b[cur], 7);
        ShiftedOut(b[cur], 8);
        assert Shifted(b, off, n)[cur] == 0;
      } else {
        assert n / 8 == (n - 1) / 8;
      }
    }
  }

  /**
   * The bit the loop tests before its k-th shift, the low bit of the byte
   * under the pointer, is stream bit k.
   */
  lemma PointerBit(b: seq<bv8>, off: nat, k: nat)
    requires off + k / 8 < |b|
    ensures Readable(b, off, k)
    ensures LowBit(Shifted(b, off, k)[off + k / 8]) == StreamBit(b, off, k)
  {
    if k > 0 {
      assert (k - 1) / 8 <= k / 8;
    }
    ShiftedBuffer(b, off, k);
  }

  /** simple_dvo after clocking n bits from the pointer off, starting from dvo. */
  function DvoAfter(dvo: bv32, b: seq<bv8>, off: nat, n: nat): (r: bv32)
    requires Readable(b, off, n)
  {
    if n == 0 then dvo
    else
      assert Readable(b, off, n - 1);
      ClockedDvo(DvoAfter(dvo, b, off, n - 1), StreamBit(b, off, n - 1))
  }

  /** Clocking touches only DATA0 and DCLK of simple_dvo. */
  lemma {:induction false} DvoAfterKeeps(dvo: bv32, b: seq<bv8>, off: nat, n: nat)
    requires Readable(b, off, n)
    ensures OtherLines(DvoAfter(dvo, b, off, n)) == OtherLines(dvo)
  {
    if n > 0 {
      assert Readable(b, off, n - 1);
      DvoAfterKeeps(dvo, b, off, n - 1);
      var prev := DvoAfter(dvo, b, off, n - 1);
      var next := ClockedDvo(prev, StreamBit(b, off, n - 1));
      assert DvoAfter(dvo, b, off, n) == next;
    }
  }

  /** Once a bit went out, DCLK rests low and DATA0 holds the last bit clocked. */
  lemma DvoAfterLast(dvo: bv32, b: seq<bv8>, off: nat, n: nat)
    requires n > 0 && Readable(b, off, n)
    ensures off + (n - 1) / 8 < |b|
    ensures !DclkLine(DvoAfter(dvo, b, off, n))
    ensures DataLine(DvoAfter(dvo, b, off, n)) == StreamBit(b, off, n - 1)
  {
    assert Readable(b, off, n - 1);
    var next := ClockedDvo(DvoAfter(dvo, b, off, n - 1), StreamBit(b, off, n - 1));
    assert DvoAfter(dvo, b, off, n) == next;
  }

  // ---------------------------------------------------------------------------
  // The output actions
  // ---------------------------------------------------------------------------

  /** The actions of clocking n bits: DATA0 to the bit, then DCLK high, then DCLK low. */
  function BitsTrace(b: seq<bv8>, off: nat, n: nat): (t: seq<Event>)
    requires Readable(b, off, n)
  {
    if n == 0 then []
    else BitsTrace(b, off, n - 1) + [Drive(Data0, StreamBit(b, off, n - 1)), Drive(Dclk, true), Drive(Dclk, false)]
  }

  /**
   * Clocking n bits is 3 * n actions: action 3k sets DATA0 to stream bit k,
   * and it is followed by exactly one DCLK high and one DCLK low.
   */
  lemma {:induction false} BitsTraceShape(b: seq<bv8>, off: nat, n: nat)
    requires Readable(b, off, n)
    ensures |BitsTrace(b, off, n)| == 3 * n
    ensures forall i :: 0 <= i < 3 * n ==>
      (off + (i / 3) / 8 < |b| &&
       BitsTrace(b, off, n)[i] ==
         if i % 3 == 0 then Drive(Data0, StreamBit(b, off, i / 3))
         else Drive(Dclk, i % 3 == 1))
  {
    if n > 0 {
      assert Readable(b, off, n - 1);
      BitsTraceShape(b, off, n - 1);
      var t := BitsTrace(b, off, n);
      forall i | 0 <= i < 3 * n
        ensures off + (i / 3) / 8 < |b| &&
          t[i] == if i % 3 == 0 then Drive(Data0, StreamBit(b, off, i / 3)) else Drive(Dclk, i % 3 == 1)
      {
        assert (i / 3) / 8 <= (n - 1) / 8;
        if i >= 3 * (n - 1) {
          assert i / 3 == n - 1;
        }
      }
    }
  }

  /** The levels put on DATA0, in order. */
  function DataLevels(t: seq<Event>): (r: seq<bool>)
  {
    if t == [] then []
    else (if t[0].Drive? && t[0].pin == Data0 then [t[0].high] else []) + DataLevels(t[1..])
  }

  lemma {:induction false} DataLevelsAppend(s: seq<Event>, t: seq<Event>)
    ensures DataLevels(s + t) == DataLevels(s) + DataLevels(t)
    decreases |s|
  {
    if s != [] {
      assert (s + t)[1..] == s[1..] + t;
      DataLevelsAppend(s[1..], t);
    } else {
      assert s + t == t;
    }
  }

  /** One clocked bit drives DATA0 once. */
  lemma DataLevelsOfClock(bit: bool)
    ensures DataLevels([Drive(Data0, bit), Drive(Dclk, true), Drive(Dclk, false)]) == [bit]
  {
    var low: seq<Event> := [Drive(Dclk, false)];
    var high := [Drive(Dclk, true)] + low;
    assert low[1..] == [];
    assert DataLevels(low) == [];
    assert high[1..] == low;
    assert DataLevels(high) == [];
    assert ([Drive(Data0, bit)] + high)[1..] == high;
    assert [Drive(Data0, bit), Drive(Dclk, true), Drive(Dclk, false)] == [Drive(Data0, bit)] + high;
  }

  /** The first n bits of the stream, in the order they are clocked. */
  function StreamBits(b: seq<bv8>, off: nat, n: nat): (r: seq<bool>)
    requires Readable(b, off, n)
    ensures |r| == n
    ensures forall k :: 0 <= k < n ==> off + k / 8 < |b| && r[k] == StreamBit(b, off, k)
  {
    if n == 0 then []
    else
      assert Readable(b, off, n - 1);
      var r := StreamBits(b, off, n - 1) + [StreamBit(b, off, n - 1)];
      assert forall k :: 0 <= k < n ==> off + k / 8 < |b| by {
        forall k | 0 <= k < n ensures off + k / 8 < |b| { ReadableBelow(b, off, n, k); }
      }
      r
  }

  /** DATA0 receives exactly the stream bits 0 .. n - 1, in order. */
  lemma {:induction false} DataLevelsOfBits(b: seq<bv8>, off: nat, n: nat)
    requires Readable(b, off, n)
    ensures DataLevels(BitsTrace(b, off, n)) == StreamBits(b, off, n)
  {
    if n > 0 {
      assert Readable(b, off, n - 1);
      DataLevelsOfBits(b, off, n - 1);
      var bit := StreamBit(b, off, n - 1);
      var prev := BitsTrace(b, off, n - 1);
      DataLevelsAppend(prev, [Drive(Data0, bit), Drive(Dclk, true), Drive(Dclk, false)]);
      DataLevelsOfClock(bit);
    }
  }

  /**
   * The byte 0b10110000 goes out on DATA0 least significant bit first:
   * 0, 0, 0, 0, 1, 1, 0, 1.
   */
  lemma LsbFirstExample(b: seq<bv8>, off: nat)
    requires off < |b| && b[off] == 0xB0
    ensures DataLevels(BitsTrace(b, off, 8)) == [false, false, false, false, true, true, false, true]
  {
    DataLevelsOfBits(b, off, 8);
    var levels := DataLevels(BitsTrace(b, off, 8));
    ShiftSteps(0xB0);
    forall k | 0 <= k < 8
      ensures levels[k] == [false, false, false, false, true, true, false, true][k]
    {
      assert levels[k] == BitOf(b[off], k);
    }
  }

  /**
   * A 2-byte image [0x01, 0x00] whose FPGA raises CONF_DONE after the third
   * clocked bit: three bits go out (1, 0, 0), whatever the buffer held around
   * the copied bytes.
   */
  lemma TwoByteExample(ival: nat -> bv8, base: nat, b: seq<bv8>, off: nat)
    requires off + 2 <= |b|
    requires !DoneLine(ival(base)) && !DoneLine(ival(base + 1)) && !DoneLine(ival(base + 2))
    requires DoneLine(ival(base + 3))
    ensures ClockedBits(ival, base, 2) == 3
    ensures DataLevels(BitsTrace(Copied(b, off, [0x01, 0x00]), off, 3)) == [true, false, false]
  {
    ClockedBitsAt(ival, base, 2, 3);
    var c := Copied(b, off, [0x01, 0x00]);
    CopiedBytes(b, off, [0x01, 0x00]);
    assert c[off + 0] == 0x01;
    DataLevelsOfBits(c, off, 3);
  }

  /** All actions of a write whose poll succeeded after p failed reads and that clocked n bits. */
  function ConfigureTrace(p: nat, b: seq<bv8>, off: nat, n: nat): (t: seq<Event>)
    requires Readable(b, off, n)
    ensures |t| == p + 4 + 3 * n
  {
    BitsTraceShape(b, off, n);
    Delays(p) + RESET_PULSE + BitsTrace(b, off, n)
  }

  /**
   * In a successful configuration the poll only waits, nCONFIG is driven
   * exactly twice (low, then high, each followed by 1000 us), and every
   * DATA0 and DCLK action comes after that pulse.
   */
  lemma ResetPrecedesClocking(p: nat, b: seq<bv8>, off: nat, n: nat)
    requires Readable(b, off, n)
    ensures var t := ConfigureTrace(p, b, off, n);
      |t| == p + 4 + 3 * n &&
      (forall i :: 0 <= i < p ==> t[i] == Delay(1)) &&
      t[p] == Drive(NConfig, false) && t[p + 1] == Delay(1000) &&
      t[p + 2] == Drive(NConfig, true) && t[p + 3] == Delay(1000) &&
      (forall i :: 0 <= i < |t| && t[i].Drive? && t[i].pin == NConfig ==> i == p || i == p + 2) &&
      (forall i :: 0 <= i < |t| && t[i].Drive? && t[i].pin != NConfig ==> i >= p + 4)
  {
    BitsTraceShape(b, off, n);
    var t := ConfigureTrace(p, b, off, n);
    var bits := BitsTrace(b, off, n);
    assert t == Delays(p) + RESET_PULSE + bits;
    forall i | p + 4 <= i < |t|
      ensures t[i].Drive? && t[i].pin != NConfig
    {
      assert t[i] == bits[i - (p + 4)];
    }
  }
}
