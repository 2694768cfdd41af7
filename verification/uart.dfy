/**
 * The interrupt-driven serial transport (uart.cpp): per channel, a receive and
 * a transmit ring buffer whose `head` is advanced by the producer and `tail`
 * by the consumer. The receive interrupt and `putc` produce, `getc` and the
 * transmit interrupt consume. A buffer of SIZE slots holds at most SIZE-1
 * bytes: slot `head` always holds the newest byte and `head == tail` means empty.
 *
 * The four channels of the source are copies of one another; `Channel` models
 * one of them, and the two `available` variants of the copies are both given.
 * Every interrupt handler and routine is one atomic step.
 */
module Uart {

  /** `UART_NO_DATA`: returned by `getc` on an empty buffer. */
  const NoData: int := 0x0100
  /** `UART_BUFFER_OVERFLOW >> 8`: the error code latched when a received byte is dropped. */
  const OverflowCode: bv8 := 0x02
  /** The frame-error and data-overrun bits of the status register (FE0 = bit 4, DOR0 = bit 3). */
  const ErrorBits: bv8 := 0x18

  /** `SIZE - 1` for a power-of-two buffer size between 2 and 256. */
  predicate IsSizeMask(mask: int)
  {
    mask == 1 || mask == 3 || mask == 7 || mask == 15 ||
    mask == 31 || mask == 63 || mask == 127 || mask == 255
  }

  /** The slot after `i`, wrapping from the last slot to 0. */
  function Next(i: int, mask: int): (n: int)
    requires IsSizeMask(mask) && 0 <= i <= mask
    ensures 0 <= n <= mask
  {
    if i == mask then 0 else i + 1
  }

  /**
   * The source computes the next slot as `(i + 1) & MASK` on `unsigned char`
   * indices; because SIZE is a power of two this is the wrapping successor.
   */
  lemma NextIsMaskedIncrement(i: bv8, mask: bv8)
    requires IsSizeMask(mask as int) && i <= mask
    ensures Next(i as int, mask as int) == ((i + 1) & mask) as int
  {
    assert IsSizeMask(mask as int) ==>
      mask == 1 || mask == 3 || mask == 7 || mask == 15 ||
      mask == 31 || mask == 63 || mask == 127 || mask == 255;
  }

  /** `x % m` for `0 <= x <= 2 * m`. */
  lemma {:induction false} ModUpToTwice(x: int, m: int)
    requires m > 0 && 0 <= x <= 2 * m
    ensures x % m == if x < m then x else if x < 2 * m then x - m else 0
  {
    var q := x / m;
    assert x == q * m + x % m;
    QuotientCases(q, m);
  }

  lemma QuotientCases(q: int, m: int)
    requires m > 0
    ensures q >= 3 ==> q * m >= 3 * m
    ensures q <= -1 ==> q * m <= -m
  {
  }

  /** The number of bytes between `tail` (exclusive) and `head` (inclusive), modulo `size`. */
  function Count(head: int, tail: int, size: int): (n: int)
    requires 0 <= head < size && 0 <= tail < size
    ensures 0 <= n < size
  {
    if head >= tail then head - tail else size + head - tail
  }

  /** The slot of the byte that is `i` places after `tail`. */
  function Slot(tail: int, i: int, size: int): (s: int)
    requires 0 <= tail < size && 0 <= i < size
    ensures 0 <= s < size
  {
    if tail + 1 + i < size then tail + 1 + i else tail + 1 + i - size
  }

  /**
   * `uart0_available` as written: `(MASK + head - tail) % MASK`. Being taken
   * modulo `MASK`, it can never report the `MASK` bytes of a full buffer.
   */
  function AvailableAsWritten(head: int, tail: int, mask: int): (r: int)
    requires IsSizeMask(mask)
    ensures 0 <= r < mask
  {
    (mask + head - tail) % mask
  }

  /**
   * What `uart0_available` reports: the stored count while the stored bytes
   * do not wrap past the last slot and the buffer is not full, 0 when it is
   * full without wrapping, and one less than the count once they wrap.
   */
  lemma {:induction false} AvailableAsWrittenCharacterised(head: int, tail: int, mask: int)
    requires IsSizeMask(mask) && 0 <= head <= mask && 0 <= tail <= mask
    ensures var n := Count(head, tail, mask + 1);
            AvailableAsWritten(head, tail, mask) ==
              if head < tail then n - 1
              else if n == mask then 0
              else n
  {
    ModUpToTwice(mask + head - tail, mask);
  }

  /** One byte that wrapped to slot 0 of a 32-byte buffer is reported as 0 bytes available. */
  lemma AvailableAsWrittenMissesWrappedByte()
    ensures Count(0, 31, 32) == 1 && AvailableAsWritten(0, 31, 31) == 0
  {
  }

  /** The evident intent: `(SIZE + head - tail) % SIZE`, the number of stored bytes. */
  function Available(head: int, tail: int, mask: int): (r: int)
    requires IsSizeMask(mask) && 0 <= head <= mask && 0 <= tail <= mask
    ensures r == Count(head, tail, mask + 1)
  {
    ModUpToTwice(mask + 1 + head - tail, mask + 1);
    (mask + 1 + head - tail) % (mask + 1)
  }

  /** A buffer of `mask + 1` slots over a byte array, updated in place. */
  class RingBuffer {
    const mask: int
    const buf: array<bv8>
    /** `unsigned char` indices, always below SIZE. */
    var head: int
    var tail: int
    /** The stored bytes, oldest first. */
    ghost var contents: seq<bv8>

    function Size(): int
    {
      mask + 1
    }

    /** The most bytes the buffer can hold: SIZE - 1. */
    function Capacity(): int
    {
      mask
    }

    ghost predicate Valid()
      reads this, buf
    {
      && IsSizeMask(mask)
      && buf.Length == Size()
      && 0 <= head <= mask && 0 <= tail <= mask
      && |contents| == Count(head, tail, Size())
      && forall i :: 0 <= i < |contents| ==> contents[i] == buf[Slot(tail, i, Size())]
    }

    constructor (m: int)
      requires IsSizeMask(m)
      ensures Valid() && fresh(buf)
      ensures mask == m && head == 0 && tail == 0 && contents == []
    {
      mask := m;
      buf := new bv8[m + 1];
      head, tail := 0, 0;
      contents := [];
    }

    lemma CapacityBound()
      requires Valid()
      ensures |contents| <= Capacity()
    {
    }

    /** `head == tail`. */
    function IsEmpty(): (r: bool)
      reads this, buf
      requires Valid()
      ensures r <==> contents == []
    {
      head == tail
    }

    /** `(head + 1) & MASK == tail`: the next slot is the consumer's. */
    function IsFull(): (r: bool)
      reads this, buf
      requires Valid()
      ensures r <==> |contents| == Capacity()
    {
      Next(head, mask) == tail
    }

    /** Both indices to 0: the buffer is empty; the stored bytes are not touched. */
    method Reset()
      requires Valid()
      modifies this`head, this`tail, this`contents
      ensures Valid()
      ensures head == 0 && tail == 0 && contents == []
    {
      head, tail := 0, 0;
      contents := [];
    }

    /**
     * Store at `(head + 1) & MASK` and advance `head`, unless that slot is
     * `tail`: then the byte is dropped and nothing changes.
     */
    method Put(x: bv8) returns (stored: bool)
      requires Valid()
      modifies this`head, this`contents, buf
      ensures Valid()
      ensures stored <==> |old(contents)| < Capacity()
      ensures contents == if stored then old(contents) + [x] else old(contents)
      ensures stored ==> head == Next(old(head), mask) && buf[head] == x
      ensures !stored ==> head == old(head) && buf[..] == old(buf[..])
      ensures tail == old(tail)
    {
      var tmphead := Next(head, mask);
      if tmphead == tail {
        stored := false;
      } else {
        ghost var n := |contents|;
        assert Slot(tail, n, Size()) == tmphead;
        buf[tmphead] := x;
        head := tmphead;
        contents := contents + [x];
        stored := true;
        forall i | 0 <= i < n
          ensures contents[i] == buf[Slot(tail, i, Size())]
        {
          assert Slot(tail, i, Size()) != tmphead;
        }
      }
    }

    /** Advance `tail` and read the byte there: the oldest stored byte. */
    method Take() returns (x: bv8)
      requires Valid() && contents != []
      modifies this`tail, this`contents
      ensures Valid()
      ensures x == old(contents)[0] && contents == old(contents)[1..]
      ensures tail == Next(old(tail), mask) && head == old(head)
    {
      ghost var t := tail;
      tail := Next(tail, mask);
      x := buf[tail];
      contents := contents[1..];
      forall i | 0 <= i < |contents|
        ensures contents[i] == buf[Slot(tail, i, Size())]
      {
        assert Slot(tail, i, Size()) == Slot(t, i + 1, Size());
      }
    }

    /** `head = tail`: the stored bytes are discarded without being read. */
    method Flush()
      requires Valid()
      modifies this`head, this`contents
      ensures Valid()
      ensures contents == [] && head == tail == old(tail)
    {
      head := tail;
      contents := [];
    }
  }

  /** The bytes of a C string: those before the first NUL. */
  function UntilNul(s: seq<bv8>): (r: seq<bv8>)
    ensures |r| <= |s| && r == s[..|r|]
    ensures 0 !in r
    ensures |r| < |s| ==> s[|r|] == 0
  {
    if s == [] || s[0] == 0 then [] else [s[0]] + UntilNul(s[1..])
  }

  /** A prefix free of NUL that ends at a NUL or at the end is the C string. */
  lemma {:induction false} UntilNulIsPrefix(s: seq<bv8>, i: int)
    requires 0 <= i <= |s|
    requires 0 !in s[..i]
    requires i == |s| || s[i] == 0
    ensures UntilNul(s) == s[..i]
  {
    if i > 0 {
      assert s[0] in s[..i];
      assert s[1..][..i - 1] == s[1..i];
      assert 0 !in s[1..][..i - 1] by {
        forall k | 0 <= k < i - 1 ensures s[1..i][k] != 0 {
          assert s[1..i][k] == s[..i][k + 1];
        }
      }
      UntilNulIsPrefix(s[1..], i - 1);
    }
  }

  /** One serial channel: its two buffers, the latched receive error and the transmit-interrupt enable. */
  class Channel {
    const rx: RingBuffer
    const tx: RingBuffer
    var lastRxError: bv8
    /** The "data register empty" interrupt enable (UDRIE). */
    var udrie: bool

    ghost predicate Valid()
      reads this, rx, rx.buf, tx, tx.buf
    {
      && rx != tx && rx.buf != tx.buf
      && rx.Valid() && tx.Valid()
      && lastRxError & !(ErrorBits | OverflowCode) == 0
    }

    constructor (rxMask: int, txMask: int)
      requires IsSizeMask(rxMask) && IsSizeMask(txMask)
      ensures Valid() && fresh(rx) && fresh(tx) && fresh(rx.buf) && fresh(tx.buf)
      ensures rx.mask == rxMask && tx.mask == txMask
      ensures rx.contents == [] && tx.contents == [] && lastRxError == 0 && !udrie
    {
      rx := new RingBuffer(rxMask);
      tx := new RingBuffer(txMask);
      lastRxError := 0;
      udrie := false;
    }

    /**
     * `uart0_init`: all four indices to 0. Rewriting the control register
     * leaves the transmit interrupt disabled; the latched error is kept.
     */
    method Init()
      requires Valid()
      modifies this`udrie, rx`head, rx`tail, rx`contents, tx`head, tx`tail, tx`contents
      ensures Valid()
      ensures rx.head == 0 && rx.tail == 0 && tx.head == 0 && tx.tail == 0
      ensures rx.contents == [] && tx.contents == []
      ensures !udrie && lastRxError == old(lastRxError)
    {
      rx.Reset();
      tx.Reset();
      udrie := false;
    }

    /**
     * The receive interrupt: the byte `data` arrives with status `usr`. It is
     * stored unless the buffer is full; either way the latched error is
     * overwritten, by the overflow code or by the status error bits.
     */
    method ReceiveIsr(usr: bv8, data: bv8)
      requires Valid()
      modifies this`lastRxError, rx`head, rx`contents, rx.buf
      ensures Valid()
      ensures |old(rx.contents)| < rx.Capacity() ==>
                rx.contents == old(rx.contents) + [data] && lastRxError == usr & ErrorBits
      ensures |old(rx.contents)| == rx.Capacity() ==>
                && rx.contents == old(rx.contents) && lastRxError == OverflowCode
                && rx.head == old(rx.head) && rx.buf[..] == old(rx.buf[..])
      ensures rx.tail == old(rx.tail)
    {
      var err := usr & ErrorBits;
      rx.CapacityBound();
      var stored := rx.Put(data);
      if !stored {
        err := OverflowCode;
      }
      lastRxError := err;
    }

    /**
     * `uart0_getc`: `UART_NO_DATA` on an empty buffer; otherwise the oldest
     * byte in the low half and the latched error in the high half.
     */
    method Getc() returns (r: int)
      requires Valid()
      modifies rx`tail, rx`contents
      ensures Valid()
      ensures 0 <= r < 0x1_0000
      ensures r == NoData <==> old(rx.contents) == []
      ensures old(rx.contents) == [] ==> rx.contents == [] && rx.tail == old(rx.tail)
      ensures old(rx.contents) != [] ==>
                && r % 256 == old(rx.contents)[0] as int
                && r / 256 == lastRxError as int
                && rx.contents == old(rx.contents)[1..]
      ensures rx.head == old(rx.head)
    {
      if rx.IsEmpty() {
        return NoData;
      }
      var data := rx.Take();
      r := lastRxError as int * 256 + data as int;
      assert lastRxError != 1;
    }

    /**
     * `uart0_putc`: store at the next head and enable the transmit interrupt.
     * The busy-wait for room is the precondition.
     */
    method Putc(data: bv8)
      requires Valid() && |tx.contents| < tx.Capacity()
      modifies this`udrie, tx`head, tx`contents, tx.buf
      ensures Valid()
      ensures tx.contents == old(tx.contents) + [data]
      ensures udrie && tx.tail == old(tx.tail)
    {
      var _ := tx.Put(data);
      udrie := true;
    }

    /** `uart0_puts`: send the bytes of a C string one by one. */
    method Puts(s: seq<bv8>)
      requires Valid() && |tx.contents| + |UntilNul(s)| <= tx.Capacity()
      modifies this`udrie, tx`head, tx`contents, tx.buf
      ensures Valid()
      ensures tx.contents == old(tx.contents) + UntilNul(s)
      ensures udrie == (old(udrie) || UntilNul(s) != [])
    {
      var i := 0;
      while i < |s| && s[i] != 0
        invariant 0 <= i <= |UntilNul(s)|
        invariant s[..i] == UntilNul(s)[..i]
        invariant Valid()
        invariant tx.contents == old(tx.contents) + s[..i]
        invariant udrie == (old(udrie) || i > 0)
      {
        Putc(s[i]);
        i := i + 1;
      }
      UntilNulIsPrefix(s, i);
    }

    /**
     * The transmit interrupt: hand the oldest byte to the data register, or,
     * when the buffer has drained, disable the interrupt.
     */
    method TransmitIsr() returns (sent: bv8, ok: bool)
      requires Valid()
      modifies this`udrie, tx`tail, tx`contents
      ensures Valid()
      ensures ok <==> old(tx.contents) != []
      ensures ok ==> sent == old(tx.contents)[0] && tx.contents == old(tx.contents)[1..] && udrie == old(udrie)
      ensures !ok ==> tx.contents == old(tx.contents) && !udrie
    {
      if !tx.IsEmpty() {
        sent := tx.Take();
        ok := true;
      } else {
        udrie := false;
        sent, ok := 0, false;
      }
    }

    /** `uart0_available`, as written. */
    function AvailableZero(): (r: int)
      reads this, rx, rx.buf, tx, tx.buf
      requires Valid()
      ensures r == if rx.head < rx.tail then |rx.contents| - 1
                   else if |rx.contents| == rx.Capacity() then 0
                   else |rx.contents|
    {
      AvailableAsWrittenCharacterised(rx.head, rx.tail, rx.mask);
      AvailableAsWritten(rx.head, rx.tail, rx.mask)
    }

    /** `uart3_available`: `(head - tail) != 0`. */
    function AvailableThree(): (r: bool)
      reads this, rx, rx.buf, tx, tx.buf
      requires Valid()
      ensures r <==> rx.contents != []
    {
      rx.head as int - rx.tail != 0
    }

    /** `uart0_flush`: `head = tail`, so the unread bytes are dropped. */
    method Flush()
      requires Valid()
      modifies rx`head, rx`contents
      ensures Valid()
      ensures rx.contents == [] && rx.tail == old(rx.tail) && rx.buf[..] == old(rx.buf[..])
    {
      rx.Flush();
    }
  }

  /** Bytes received one after another, while there is room, are queued in order. */
  method ReceiveAll(ch: Channel, bytes: seq<bv8>)
    requires ch.Valid() && |ch.rx.contents| + |bytes| <= ch.rx.Capacity()
    modifies ch, ch.rx, ch.rx.buf
    ensures ch.Valid() && ch.rx.contents == old(ch.rx.contents) + bytes
  {
    var i := 0;
    while i < |bytes|
      invariant 0 <= i <= |bytes|
      invariant ch.Valid() && ch.rx.contents == old(ch.rx.contents) + bytes[..i]
    {
      ch.ReceiveIsr(0, bytes[i]);
      assert bytes[..i + 1] == bytes[..i] + [bytes[i]];
      i := i + 1;
    }
    assert bytes[..i] == bytes;
  }

  /** Calling `getc` until the buffer is empty yields the queued bytes in order. */
  method ReadAll(ch: Channel) returns (got: seq<bv8>)
    requires ch.Valid()
    modifies ch.rx
    ensures ch.Valid() && ch.rx.contents == []
    ensures got == old(ch.rx.contents)
  {
    got := [];
    while ch.rx.head != ch.rx.tail
      invariant ch.Valid() && got + ch.rx.contents == old(ch.rx.contents)
      decreases |ch.rx.contents|
    {
      ghost var before := ch.rx.contents;
      var r := ch.Getc();
      got := got + [(r % 256) as bv8];
      assert got + ch.rx.contents == old(ch.rx.contents) by {
        assert before == [before[0]] + before[1..];
      }
    }
  }

  /**
   * First in, first out: bytes received into an empty buffer, fewer than
   * its size, come back from `getc` in the order they arrived.
   */
  method ReceiveThenRead(ch: Channel, bytes: seq<bv8>) returns (got: seq<bv8>)
    requires ch.Valid() && ch.rx.contents == [] && |bytes| <= ch.rx.Capacity()
    modifies ch, ch.rx, ch.rx.buf
    ensures ch.Valid() && ch.rx.contents == []
    ensures got == bytes
  {
    ReceiveAll(ch, bytes);
    got := ReadAll(ch);
  }
}
