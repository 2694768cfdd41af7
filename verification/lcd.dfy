/**
 * The HD44780 character display in 4-bit mode (lcd.cpp). The controller
 * latches the RS line and the data lines D7..D4 on every pulse of EN; a byte
 * is two such pulses, high nibble first. RS low selects the instruction
 * register (a command), RS high the data register (a character).
 *
 * `Display` models the port lines and, as ghost state, the controller's
 * side of the 4-bit protocol: the high nibble it holds between the two
 * pulses of a byte and the bytes it has received. The number routines are written as the characters
 * they send, and each one is proved against an independent definition of
 * the digits it should show.
 */
module Lcd {
  import opened Definitions


  /** What the controller samples on one EN pulse: the RS line and D7..D4 as a nibble. */
  datatype Latch = Latch(rs: bool, nibble: bv8)

  /** One byte received by the controller. */
  datatype Transfer = Command(byte: bv8) | Data(byte: bv8)

  /** Two latches, high nibble first, make one byte; RS of the first decides the register. */
  function Combine(hi: Latch, lo: Latch): Transfer
  {
    var b := (hi.nibble << 4) | (lo.nibble & 0x0F);
    if hi.rs then Data(b) else Command(b)
  }

  /** The 4-bit split of `lcd_write` loses nothing: the two nibbles reassemble the byte. */
  lemma NibbleSplitRoundTrip(c: bv8, rs: bool)
    ensures Combine(Latch(rs, c >> 4), Latch(rs, c & 0x0F)) == if rs then Data(c) else Command(c)
  {
  }

  /** Four data lines D7..D4 read as a nibble. */
  function LinesOf(d7: bool, d6: bool, d5: bool, d4: bool): (n: bv8)
    ensures n < 16
  {
    (if d7 then 8 else 0) | (if d6 then 4 else 0) | (if d5 then 2 else 0) | (if d4 then 1 else 0)
  }

  /** Setting D7..D4 from bits 7..4 of a byte puts its high nibble on the lines. */
  lemma HighNibbleLines(c: bv8)
    ensures LinesOf(c & 0x80 != 0, c & 0x40 != 0, c & 0x20 != 0, c & 0x10 != 0) == c >> 4
  {
  }

  /** Setting D7..D4 from bits 3..0 of a byte puts its low nibble on the lines. */
  lemma LowNibbleLines(c: bv8)
    ensures LinesOf(c & 0x08 != 0, c & 0x04 != 0, c & 0x02 != 0, c & 0x01 != 0) == c & 0x0F
  {
  }

  /** A C `char` is one byte. */
  predicate IsByteChar(c: char)
  {
    c as int < 256
  }

  predicate IsByteString(cs: seq<char>)
  {
    forall i | 0 <= i < |cs| :: IsByteChar(cs[i])
  }

  /** The characters shown by the data bytes among `ts`; commands show nothing. */
  function Text(ts: seq<Transfer>): (s: seq<char>)
    ensures |s| <= |ts|
    ensures IsByteString(s)
  {
    if ts == [] then []
    else
      var rest := Text(ts[1..]);
      match ts[0]
      case Command(_) => rest
      case Data(b) => [(b as int) as char] + rest
  }

  /** The byte a `char` is sent as. */
  function CharCode(c: char): (b: bv8)
    requires IsByteChar(c)
  {
    ToByte(c as int)
  }

  /** The display shows the character whose code it receives. */
  lemma CharCodeRoundTrip(c: char)
    requires IsByteChar(c)
    ensures (CharCode(c) as int) as char == c
  {
  }

  /** The data transfers that send the characters `cs`. */
  function Chars(cs: seq<char>): (ts: seq<Transfer>)
    requires IsByteString(cs)
    ensures |ts| == |cs|
  {
    seq(|cs|, i requires 0 <= i < |cs| => Data(CharCode(cs[i])))
  }

  /** Sending characters and reading the display text back gives the same characters. */
  lemma {:induction false} TextOfChars(cs: seq<char>)
    requires IsByteString(cs)
    ensures Text(Chars(cs)) == cs
  {
    if cs != [] {
      CharCodeRoundTrip(cs[0]);
      assert Chars(cs)[1..] == Chars(cs[1..]);
      TextOfChars(cs[1..]);
    }
  }

  /** The transfers of a fixed number of characters, one by one. */
  lemma CharsOfThree(s: seq<char>)
    requires |s| == 3 && IsByteString(s)
    ensures Chars(s) == [Data(CharCode(s[0]))] + [Data(CharCode(s[1]))] + [Data(CharCode(s[2]))]
  {
  }

  lemma CharsOfFour(s: seq<char>)
    requires |s| == 4 && IsByteString(s)
    ensures Chars(s) == [Data(CharCode(s[0]))] + [Data(CharCode(s[1]))] + [Data(CharCode(s[2]))] + [Data(CharCode(s[3]))]
  {
  }

  lemma CharsOfFive(s: seq<char>)
    requires |s| == 5 && IsByteString(s)
    ensures Chars(s) == [Data(CharCode(s[0]))] + [Data(CharCode(s[1]))] + [Data(CharCode(s[2]))] + [Data(CharCode(s[3]))] + [Data(CharCode(s[4]))]
  {
  }

  /** `chex`: the hexadecimal digits. */
  const Chex: seq<char> := ['0', '1', '2', '3', '4', '5', '6', '7', '8', '9', 'A', 'B', 'C', 'D', 'E', 'F']
  /** `chex_wBlanking`: the same table with a space in place of '0'. */
  const ChexBlanking: seq<char> := [' ', '1', '2', '3', '4', '5', '6', '7', '8', '9', 'A', 'B', 'C', 'D', 'E', 'F']

  /** The value of a digit character of `chex` (0 for any other character). */
  function HexDigitValue(c: char): int
  {
    if '0' <= c <= '9' then c as int - '0' as int
    else if 'A' <= c <= 'F' then c as int - 'A' as int + 10
    else 0
  }

  lemma ChexValues(d: int)
    requires 0 <= d < 16
    ensures HexDigitValue(Chex[d]) == d && IsByteChar(Chex[d]) && Chex[d] != ' '
    ensures d < 10 ==> Chex[d] == ('0' as int + d) as char
    ensures d >= 10 ==> Chex[d] == ('A' as int + d - 10) as char
    ensures d != 0 ==> ChexBlanking[d] == Chex[d]
    ensures ChexBlanking[0] == ' '
  {
  }

  /** The characters of `chex`: a decimal digit or a capital letter up to 'F'. */
  predicate IsHexDigit(c: char)
  {
    '0' <= c <= '9' || 'A' <= c <= 'F'
  }

  /** A hex digit is the entry of `chex` at its own digit value, and the entries of `chex` are exactly the hex digits. */
  lemma ChexInverse(c: char)
    ensures IsHexDigit(c) ==> 0 <= HexDigitValue(c) < 16 && Chex[HexDigitValue(c)] == c
    ensures IsHexDigit(c) <==> c in Chex
  {
    if IsHexDigit(c) {
      ChexValues(HexDigitValue(c));
    }
    if c in Chex {
      var i :| 0 <= i < |Chex| && Chex[i] == c;
      ChexValues(i);
    }
  }

  /** The value of a string of digits, most significant first, in base `radix`. */
  function Value(s: seq<char>, radix: int): int
  {
    if s == [] then 0 else Value(s[..|s| - 1], radix) * radix + HexDigitValue(s[|s| - 1])
  }

  lemma ValueOfThree(a: char, b: char, c: char, radix: int)
    ensures Value([a, b, c], radix) == (HexDigitValue(a) * radix + HexDigitValue(b)) * radix + HexDigitValue(c)
  {
    assert [a][..0] == [];
    assert Value([a], radix) == HexDigitValue(a);
    assert [a, b][..1] == [a];
    assert Value([a, b], radix) == HexDigitValue(a) * radix + HexDigitValue(b);
    assert [a, b, c][..2] == [a, b];
  }

  lemma ValueOfFour(a: char, b: char, c: char, d: char, radix: int)
    ensures Value([a, b, c, d], radix) ==
            ((HexDigitValue(a) * radix + HexDigitValue(b)) * radix + HexDigitValue(c)) * radix + HexDigitValue(d)
  {
    assert [a, b, c, d][..3] == [a, b, c];
    ValueOfThree(a, b, c, radix);
  }

  /** `(x & (0xF * unit)) / unit` for `unit` a power of 16: one nibble of `x`. */
  function Nibble(x: int, unit: int): (n: int)
    requires unit > 0
    ensures 0 <= n < 16
  {
    x / unit % 0x10
  }

  /** A 16-bit value as four nibbles. */
  function Pack(n0: int, n1: int, n2: int, n3: int): int
  {
    n0 + 0x10 * n1 + 0x100 * n2 + 0x1000 * n3
  }

  /** `x / d == q` and `x % d == r` are determined by `x == d * q + r`, `0 <= r < d`. */
  lemma {:induction false} DivModUnique(x: int, d: int, q: int, r: int)
    requires d > 0 && x == d * q + r && 0 <= r < d
    ensures x / d == q && x % d == r
  {
    var q', r' := x / d, x % d;
    assert d * q' + r' == d * q + r;
    assert d * (q' - q) == r - r';
    QuotientsDiffer(q' - q, d);
  }

  lemma QuotientsDiffer(k: int, d: int)
    requires d > 0
    ensures k >= 1 ==> d * k >= d
    ensures k <= -1 ==> d * k <= -d
  {
  }

  /** Packing four nibbles and reading them back gives the same four nibbles. */
  lemma {:induction false} Unpack(n0: int, n1: int, n2: int, n3: int)
    requires 0 <= n0 < 16 && 0 <= n1 < 16 && 0 <= n2 < 16 && 0 <= n3 < 16
    ensures var x := Pack(n0, n1, n2, n3);
            && 0 <= x < 0x1_0000
            && Nibble(x, 0x1) == n0 && Nibble(x, 0x10) == n1
            && Nibble(x, 0x100) == n2 && Nibble(x, 0x1000) == n3 && x / 0x1000 == n3
  {
    var x := Pack(n0, n1, n2, n3);
    DivModUnique(x, 0x10, n1 + 0x10 * n2 + 0x100 * n3, n0);
    DivModUnique(n1 + 0x10 * n2 + 0x100 * n3, 0x10, n2 + 0x10 * n3, n1);
    DivModUnique(x, 0x100, n2 + 0x10 * n3, n0 + 0x10 * n1);
    DivModUnique(n2 + 0x10 * n3, 0x10, n3, n2);
    DivModUnique(x, 0x1000, n3, n0 + 0x10 * n1 + 0x100 * n2);
    DivModUnique(n3, 0x10, 0, n3);
  }

  /** Every 16-bit value is the packing of its four nibbles. */
  lemma {:induction false} Repack(x: int)
    requires 0 <= x < 0x1_0000
    ensures x == Pack(Nibble(x, 0x1), Nibble(x, 0x10), Nibble(x, 0x100), Nibble(x, 0x1000))
  {
    var a := x / 0x10;
    var b := a / 0x10;
    var c := b / 0x10;
    assert x == 0x10 * a + x % 0x10;
    assert a == 0x10 * b + a % 0x10;
    assert b == 0x10 * c + b % 0x10;
    DivModUnique(x, 0x100, b, x % 0x10 + 0x10 * (a % 0x10));
    DivModUnique(x, 0x1000, c, x % 0x10 + 0x10 * (a % 0x10) + 0x100 * (b % 0x10));
    DivModUnique(c, 0x10, 0, c);
  }

  /** `lcd_unum_hex(num)`: the four nibbles of `num` from `chex`, most significant first. */
  function HexChars(num: int): (s: seq<char>)
    requires 0 <= num < 0x1_0000
    ensures |s| == 4 && IsByteString(s)
    ensures forall k | 0 <= k < 4 :: IsHexDigit(s[k])
    ensures Value(s, 16) == num
  {
    var s := [Chex[Nibble(num, 0x1000)], Chex[Nibble(num, 0x100)], Chex[Nibble(num, 0x10)], Chex[Nibble(num, 0x1)]];
    ChexValues(Nibble(num, 0x1000));
    ChexValues(Nibble(num, 0x100));
    ChexValues(Nibble(num, 0x10));
    ChexValues(Nibble(num, 0x1));
    Repack(num);
    ValueOfFour(s[0], s[1], s[2], s[3], 16);
    s
  }

  /** Four characters of `chex` whose value is `num` are the output of `lcd_unum_hex`: there is no other. */
  lemma {:induction false} HexCharsUnique(num: int, s: seq<char>)
    requires 0 <= num < 0x1_0000
    requires |s| == 4 && (forall k | 0 <= k < 4 :: IsHexDigit(s[k])) && Value(s, 16) == num
    ensures s == HexChars(num)
  {
    ChexInverse(s[0]);
    ChexInverse(s[1]);
    ChexInverse(s[2]);
    ChexInverse(s[3]);
    var a, b, c, d := HexDigitValue(s[0]), HexDigitValue(s[1]), HexDigitValue(s[2]), HexDigitValue(s[3]);
    assert s == [s[0], s[1], s[2], s[3]];
    ValueOfFour(s[0], s[1], s[2], s[3], 16);
    assert num == Pack(d, c, b, a);
    Unpack(d, c, b, a);
  }

  /**
   * `lcd_unum_hex_wBlanking(num)`: like `lcd_unum_hex`, but the first three
   * nibbles come from `chex_wBlanking`, so each of them that is zero shows as
   * a space, leading or not. The last nibble always shows as a digit.
   */
  function HexCharsBlanking(num: int): (s: seq<char>)
    requires 0 <= num < 0x1_0000
    ensures |s| == 4 && IsByteString(s)
    ensures forall k :: 0 <= k < 3 ==> s[k] == if HexChars(num)[k] == '0' then ' ' else HexChars(num)[k]
    ensures s[3] == HexChars(num)[3]
  {
    ChexValues(Nibble(num, 0x1000));
    ChexValues(Nibble(num, 0x100));
    ChexValues(Nibble(num, 0x10));
    [ChexBlanking[Nibble(num, 0x1000)], ChexBlanking[Nibble(num, 0x100)], ChexBlanking[Nibble(num, 0x10)], Chex[Nibble(num, 0x1)]]
  }

  /** Zero nibbles in the middle are blanked too. */
  lemma BlankingMiddleZeros()
    ensures HexCharsBlanking(0x1001) == ['1', ' ', ' ', '1']
  {
    ChexValues(0);
    ChexValues(1);
    assert Nibble(0x1001, 0x1000) == 1 && Nibble(0x1001, 0x100) == 0 && Nibble(0x1001, 0x10) == 0 && Nibble(0x1001, 0x1) == 1;
  }

  /** Zero shows as a lone final '0'. */
  lemma BlankingZero()
    ensures HexCharsBlanking(0x0000) == [' ', ' ', ' ', '0']
  {
    ChexValues(0);
    assert Nibble(0, 0x1000) == 0 && Nibble(0, 0x100) == 0 && Nibble(0, 0x10) == 0 && Nibble(0, 0x1) == 0;
  }

  /** Digits above 9 show as capital letters; only the last digit keeps its zero. */
  lemma BlankingLetters()
    ensures HexCharsBlanking(0xA0F0) == ['A', ' ', 'F', '0']
  {
    ChexValues(0);
    assert Nibble(0xA0F0, 0x1000) == 10 && Nibble(0xA0F0, 0x100) == 0 && Nibble(0xA0F0, 0x10) == 15 && Nibble(0xA0F0, 0x1) == 0;
  }

  /** `lcd_unum3(num)`: three decimal digits, zero-padded, of a `uint8_t`. */
  function Unum3Chars(num: int): (s: seq<char>)
    requires 0 <= num < 0x100
    ensures |s| == 3 && forall i | 0 <= i < 3 :: '0' <= s[i] <= '9'
    ensures Value(s, 10) == num
  {
    var s := [(num / 100 + '0' as int) as char, ((num % 100) / 10 + '0' as int) as char, (num % 10 + '0' as int) as char];
    ValueOfThree(s[0], s[1], s[2], 10);
    s
  }

  function Pow10(e: nat): (p: nat)
    ensures p >= 1
  {
    if e == 0 then 1 else 10 * Pow10(e - 1)
  }

  function Pow2(e: nat): (p: nat)
    ensures p >= 1
  {
    if e == 0 then 1 else 2 * Pow2(e - 1)
  }

  /**
   * The character at decimal place `e` of `n` in a right-aligned field: the
   * digit, or a space where `n` has no digit that far left. The units place
   * always shows a digit.
   */
  function Place(n: nat, e: nat): (c: char)
    ensures c == ' ' || '0' <= c <= '9'
  {
    if e == 0 || n >= Pow10(e) then ('0' as int + n / Pow10(e) % 10) as char else ' '
  }

  /** `n` right-aligned in five columns with leading spaces: the reference for `lcd_unum`. */
  function RightAligned(n: nat): (s: seq<char>)
    ensures |s| == 5 && IsByteString(s)
  {
    [Place(n, 4), Place(n, 3), Place(n, 2), Place(n, 1), Place(n, 0)]
  }

  /** A value whose four nibbles are all decimal digits. */
  predicate IsBcd(x: int)
  {
    Nibble(x, 0x1) <= 9 && Nibble(x, 0x10) <= 9 && Nibble(x, 0x100) <= 9 && Nibble(x, 0x1000) <= 9
  }

  /** The number that a four-digit BCD value stands for. */
  function BcdValue(x: int): int
  {
    Nibble(x, 0x1) + 10 * Nibble(x, 0x10) + 100 * Nibble(x, 0x100) + 1000 * Nibble(x, 0x1000)
  }

  /**
   * Doubling a BCD digit after the add-3 correction (`m` is `n + 3` for a
   * digit of 5 or more): such a digit becomes at least 8, so its double
   * carries into the next nibble, and what stays behind is the decimal
   * remainder of the doubled digit.
   */
  lemma DoubleAdjusted(n: int, m: int) returns (carry: int, rest: int)
    requires 0 <= n <= 9 && m == Corrected(n)
    ensures carry == 0 || carry == 1
    ensures 2 * m == 0x10 * carry + rest
    ensures 2 * n == 10 * carry + rest
    ensures 0 <= rest <= 8 && 0 <= m < 16
  {
    carry := if n >= 5 then 1 else 0;
    rest := 2 * n - 10 * carry;
  }

  /**
   * Shifting four nibbles left by one: each nibble keeps the low four bits of
   * its double plus the bit carried out of the nibble below, and the top
   * nibble's carry falls off the 16-bit value.
   */
  lemma {:induction false} ShiftNibbles(a: int, m0: int, m1: int, m2: int, m3: int,
                                        c0: int, c1: int, c2: int, c3: int,
                                        r0: int, r1: int, r2: int, r3: int, bit: int)
    requires 0 <= m0 < 16 && 0 <= m1 < 16 && 0 <= m2 < 16 && 0 <= m3 < 16
    requires 0 <= c0 <= 1 && 0 <= c1 <= 1 && 0 <= c2 <= 1 && 0 <= c3 <= 1 && 0 <= bit <= 1
    requires 0 <= r0 <= 8 && 0 <= r1 <= 8 && 0 <= r2 <= 8 && 0 <= r3 <= 8
    requires 2 * m0 == 16 * c0 + r0 && 2 * m1 == 16 * c1 + r1
    requires 2 * m2 == 16 * c2 + r2 && 2 * m3 == 16 * c3 + r3
    requires a == Pack(m0, m1, m2, m3)
    ensures 0 <= a < 0x1_0000
    ensures a / 0x8000 % 2 == c3
    ensures a * 2 % 0x1_0000 + bit == Pack(r0 + bit, r1 + c0, r2 + c1, r3 + c2)
  {
    var low := Pack(r0, r1 + c0, r2 + c1, r3 + c2);
    assert a * 2 == 0x1_0000 * c3 + low;
    assert 0 <= low < 0x1_0000;
    DivModUnique(a * 2, 0x1_0000, c3, low);
    assert a == 0x8000 * c3 + low / 2;
    DivModUnique(a, 0x8000, c3, low / 2);
    DivModUnique(c3, 2, 0, c3);
  }

  /** Four decimal digits packed into nibbles form a BCD value standing for their number. */
  lemma {:induction false} PackedBcd(x: int, d0: int, d1: int, d2: int, d3: int)
    requires 0 <= d0 <= 9 && 0 <= d1 <= 9 && 0 <= d2 <= 9 && 0 <= d3 <= 9
    requires x == Pack(d0, d1, d2, d3)
    ensures 0 <= x < 0x1_0000 && IsBcd(x) && BcdValue(x) == d0 + 10 * d1 + 100 * d2 + 1000 * d3
  {
    Unpack(d0, d1, d2, d3);
  }

  /** `num >> i`: the bits of `num` from position `i` up. */
  function Prefix(num: nat, i: nat): nat
  {
    if i == 0 then num else Prefix(num, i - 1) / 2
  }

  /** Shifting right by `i` is dividing by 2 to the `i`. */
  lemma {:induction false} PrefixIsQuotient(num: nat, i: nat)
    ensures Prefix(num, i) == num / Pow2(i)
  {
    if i > 0 {
      PrefixIsQuotient(num, i - 1);
      HalveQuotient(num, Pow2(i - 1));
    }
  }

  lemma {:induction false} PrefixAtMost(num: nat, i: nat)
    ensures Prefix(num, i) <= num
  {
    if i > 0 {
      PrefixAtMost(num, i - 1);
    }
  }

  /** A 16-bit number shifted right by 16 is zero. */
  lemma PrefixOfSixteenBits(num: int)
    requires 0 <= num < 0x1_0000
    ensures Prefix(num, 16) == 0
  {
    PrefixIsQuotient(num, 16);
    Pow2Sixteen();
  }

  /** Halving the quotient by `p` is the quotient by `2 * p`. */
  lemma {:induction false} HalveQuotient(x: int, p: int)
    requires x >= 0 && p > 0
    ensures x / (2 * p) == x / p / 2
  {
    var q := x / p;
    assert x == p * q + x % p;
    assert q == 2 * (q / 2) + q % 2;
    assert x == (2 * p) * (q / 2) + (p * (q % 2) + x % p);
    QuotientsDiffer(q % 2, p);
    DivModUnique(x, 2 * p, q / 2, p * (q % 2) + x % p);
  }

  /**
   * The five characters of `lcd_unum`, read off the BCD result: the digits
   * with leading zeros blanked, the last always shown.
   */
  function UnumChars(bcd4: int, bcd: int): (s: seq<char>)
    requires 0 <= bcd4 < 16 && 0 <= bcd < 0x1_0000
    ensures |s| == 5 && forall k | 0 <= k < 5 :: s[k] == ' ' || IsHexDigit(s[k])
    ensures s[0] == ' ' <==> bcd4 == 0
    ensures s[4] != ' '
  {
    ChexValues(bcd4);
    ChexValues(Nibble(bcd, 0x1));
    [ if bcd4 != 0 then Chex[bcd4] else ' ',
      if bcd4 == 0 && bcd < 0x1000 then ' ' else Chex[bcd / 0x1000],
      if bcd4 == 0 && bcd < 0x100 then ' ' else Chex[Nibble(bcd, 0x100)],
      if bcd4 == 0 && bcd < 0x10 then ' ' else Chex[Nibble(bcd, 0x10)],
      Chex[Nibble(bcd, 0x1)] ]
  }

  /**
   * The five characters of `lcd_unum` as lcd.cpp:220 writes the first one:
   * `chex[bcd4]` without `pgm_read_byte`. `chex` is in program memory, so
   * that read fetches the data-space byte at the table's program-memory
   * address plus `bcd4`; `stray` stands for that byte, which the model does
   * not know. The other columns are as in `UnumChars`.
   */
  function UnumCharsAsWritten(bcd4: int, bcd: int, stray: char): (s: seq<char>)
    requires 0 <= bcd4 < 16 && 0 <= bcd < 0x1_0000
    ensures s == UnumChars(bcd4, bcd) <==> bcd4 == 0 || stray == Chex[bcd4]
  {
    [ if bcd4 != 0 then stray else ' ',
      if bcd4 == 0 && bcd < 0x1000 then ' ' else Chex[bcd / 0x1000],
      if bcd4 == 0 && bcd < 0x100 then ' ' else Chex[Nibble(bcd, 0x100)],
      if bcd4 == 0 && bcd < 0x10 then ' ' else Chex[Nibble(bcd, 0x10)],
      Chex[Nibble(bcd, 0x1)] ]
  }

  /** The decimal number with digits `d4 d3 d2 d1 d0`. */
  function Decimal5(d4: int, d3: int, d2: int, d1: int, d0: int): int
  {
    d4 * 10000 + d3 * 1000 + d2 * 100 + d1 * 10 + d0
  }

  /** Place `e` of a five-digit decimal number holds its digit `d_e`, and the places above are all zero exactly when it is below `10^e`. */
  lemma {:induction false} DecimalPlaces(d4: int, d3: int, d2: int, d1: int, d0: int)
    requires 0 <= d4 <= 9 && 0 <= d3 <= 9 && 0 <= d2 <= 9 && 0 <= d1 <= 9 && 0 <= d0 <= 9
    ensures var n := Decimal5(d4, d3, d2, d1, d0);
            && n % 10 == d0
            && n / 10 % 10 == d1 && (n >= 10 <==> d4 != 0 || d3 != 0 || d2 != 0 || d1 != 0)
            && n / 100 % 10 == d2 && (n >= 100 <==> d4 != 0 || d3 != 0 || d2 != 0)
            && n / 1000 % 10 == d3 && (n >= 1000 <==> d4 != 0 || d3 != 0)
            && n / 10000 % 10 == d4 && (n >= 10000 <==> d4 != 0)
  {
    var n := Decimal5(d4, d3, d2, d1, d0);
    DivModUnique(n, 10, d4 * 1000 + d3 * 100 + d2 * 10 + d1, d0);
    DivModUnique(n / 10, 10, d4 * 100 + d3 * 10 + d2, d1);
    DivModUnique(n, 100, d4 * 100 + d3 * 10 + d2, d1 * 10 + d0);
    DivModUnique(n / 100, 10, d4 * 10 + d3, d2);
    DivModUnique(n, 1000, d4 * 10 + d3, d2 * 100 + d1 * 10 + d0);
    DivModUnique(n / 1000, 10, d4, d3);
    DivModUnique(n, 10000, d4, d3 * 1000 + d2 * 100 + d1 * 10 + d0);
    DivModUnique(d4, 10, 0, d4);
  }

  lemma Pow10UpToFour()
    ensures Pow10(1) == 10 && Pow10(2) == 100 && Pow10(3) == 1000 && Pow10(4) == 10000
  {
  }

  /** Five decimal digits with the leading zeros blanked; the last digit is always shown. */
  function Blanked(d4: int, d3: int, d2: int, d1: int, d0: int): seq<char>
    requires 0 <= d4 < 16 && 0 <= d3 < 16 && 0 <= d2 < 16 && 0 <= d1 < 16 && 0 <= d0 < 16
  {
    [ if d4 != 0 then Chex[d4] else ' ',
      if d4 == 0 && d3 == 0 then ' ' else Chex[d3],
      if d4 == 0 && d3 == 0 && d2 == 0 then ' ' else Chex[d2],
      if d4 == 0 && d3 == 0 && d2 == 0 && d1 == 0 then ' ' else Chex[d1],
      Chex[d0] ]
  }

  /** `n` right-aligned, in terms of its five decimal digits. */
  lemma {:induction false} RightAlignedDigits(d4: int, d3: int, d2: int, d1: int, d0: int)
    requires 0 <= d4 <= 9 && 0 <= d3 <= 9 && 0 <= d2 <= 9 && 0 <= d1 <= 9 && 0 <= d0 <= 9
    ensures RightAligned(Decimal5(d4, d3, d2, d1, d0)) == Blanked(d4, d3, d2, d1, d0)
  {
    DecimalPlaces(d4, d3, d2, d1, d0);
    Pow10UpToFour();
    ChexValues(d4);
    ChexValues(d3);
    ChexValues(d2);
    ChexValues(d1);
    ChexValues(d0);
  }

  /** A 16-bit value is below 0x1000, 0x100 or 0x10 exactly when its nibbles above that are zero. */
  lemma {:induction false} LeadingNibbles(x: int)
    requires 0 <= x < 0x1_0000
    ensures x / 0x1000 == Nibble(x, 0x1000)
    ensures x < 0x1000 <==> Nibble(x, 0x1000) == 0
    ensures x < 0x100 <==> Nibble(x, 0x1000) == 0 && Nibble(x, 0x100) == 0
    ensures x < 0x10 <==> Nibble(x, 0x1000) == 0 && Nibble(x, 0x100) == 0 && Nibble(x, 0x10) == 0
  {
    Repack(x);
    Unpack(Nibble(x, 0x1), Nibble(x, 0x10), Nibble(x, 0x100), Nibble(x, 0x1000));
  }

  /** Blanking on the BCD digits is the same as right-aligning the number they stand for. */
  lemma {:induction false} UnumCharsRightAligned(bcd4: int, bcd: int)
    requires 0 <= bcd4 <= 9 && 0 <= bcd < 0x1_0000 && IsBcd(bcd)
    ensures UnumChars(bcd4, bcd) == RightAligned(bcd4 * 10000 + BcdValue(bcd))
  {
    var n0, n1, n2, n3 := Nibble(bcd, 0x1), Nibble(bcd, 0x10), Nibble(bcd, 0x100), Nibble(bcd, 0x1000);
    LeadingNibbles(bcd);
    assert UnumChars(bcd4, bcd) == Blanked(bcd4, n3, n2, n1, n0);
    assert bcd4 * 10000 + BcdValue(bcd) == Decimal5(bcd4, n3, n2, n1, n0);
    RightAlignedDigits(bcd4, n3, n2, n1, n0);
  }

  /**
   * With a ten-thousands digit, the first column as written is right only
   * when the stray byte happens to be that digit.
   */
  lemma {:induction false} UnumAsWrittenFirstColumn(bcd4: int, bcd: int, stray: char)
    requires 1 <= bcd4 <= 9 && 0 <= bcd < 0x1_0000 && IsBcd(bcd)
    ensures UnumCharsAsWritten(bcd4, bcd, stray) == RightAligned(bcd4 * 10000 + BcdValue(bcd)) <==> stray == Chex[bcd4]
  {
    UnumCharsRightAligned(bcd4, bcd);
  }

  /**
   * For `num` = 10000, whatever BCD result the loop leaves, the as-written
   * output differs from "10000" unless the stray byte is '1'.
   */
  lemma {:induction false} UnumAsWrittenMisreadsTenThousands(bcd4: int, bcd: int, stray: char)
    requires 0 <= bcd4 <= 9 && 0 <= bcd < 0x1_0000 && IsBcd(bcd) && bcd4 * 10000 + BcdValue(bcd) == 10000
    requires stray != '1'
    ensures UnumCharsAsWritten(bcd4, bcd, stray) != RightAligned(10000)
  {
    UnumCharsRightAligned(bcd4, bcd);
    assert Pow10(4) == 10000;
    assert RightAligned(10000)[0] == '1';
    ChexValues(bcd4);
    assert bcd4 == 1;
  }

  /**
   * The shift-and-add-3 loop of `lcd_unum` on the 16-bit `bcd` and the 8-bit
   * `bcd4`: sixteen rounds, one bit of `num` each, most significant first.
   * The result is `num` in decimal, ten-thousands in `bcd4` and the four
   * lower digits as BCD in `bcd`.
   */
  method DoubleDabble(num: int) returns (bcd4: int, bcd: int)
    requires 0 <= num < 0x1_0000
    ensures 0 <= bcd4 <= 9 && 0 <= bcd < 0x1_0000 && IsBcd(bcd)
    ensures bcd4 * 10000 + BcdValue(bcd) == num
  {
    bcd := 0;
    bcd4 := 0;
    var i := 16;
    PrefixOfSixteenBits(num);
    while i != 0
      invariant 0 <= i <= 16
      invariant 0 <= bcd < 0x1_0000 && IsBcd(bcd) && 0 <= bcd4 <= 6
      invariant bcd4 * 10000 + BcdValue(bcd) == Prefix(num, i)
    {
      // bit i - 1 of num
      var bit := Prefix(num, i - 1) % 2;
      bcd, bcd4 := DabbleRound(bcd, bcd4, bit);
      PrefixAtMost(num, i - 1);
      i := i - 1;
    }
  }

  /** One round of the loop of `lcd_unum`: the add-3 correction, then the shift that takes in `bit`. */
  method DabbleRound(bcdIn: int, bcd4In: int, bit: int) returns (bcd: int, bcd4: int)
    requires 0 <= bcdIn < 0x1_0000 && IsBcd(bcdIn) && 0 <= bcd4In <= 6 && (bit == 0 || bit == 1)
    ensures 0 <= bcd < 0x1_0000 && IsBcd(bcd) && 0 <= bcd4 < 0x100
    ensures bcd4 * 10000 + BcdValue(bcd) == 2 * (bcd4In * 10000 + BcdValue(bcdIn)) + bit
  {
    ghost var n0, n1, n2, n3 := Nibble(bcdIn, 0x1), Nibble(bcdIn, 0x10), Nibble(bcdIn, 0x100), Nibble(bcdIn, 0x1000);
    bcd := CorrectDigits(bcdIn);
    bcd, bcd4 := ShiftIn(bcd, bcd4In, bit, n0, n1, n2, n3);
  }

  /** The five characters `lcd_unum(num)` sends: `num` right-aligned in five columns. */
  method UnumDigits(num: int) returns (s: seq<char>)
    requires 0 <= num < 0x1_0000
    ensures s == RightAligned(num)
    ensures |s| == 5 && IsByteString(s)
  {
    var bcd4, bcd := DoubleDabble(num);
    UnumCharsRightAligned(bcd4, bcd);
    s := UnumChars(bcd4, bcd);
  }

  /** The add-3 correction of double dabble: a digit of 5 or more gets 3 added. */
  function Corrected(n: int): (m: int)
    ensures 0 <= n <= 9 ==> n <= m <= 12 && (m >= 8 <==> n >= 5)
  {
    if n >= 5 then n + 3 else n
  }

  /**
   * The first half of the `lcd_unum` loop body: each BCD digit of 5 or more
   * gets 3 added, nibble by nibble from the lowest. No correction carries
   * into the next nibble.
   */
  method CorrectDigits(bcdIn: int) returns (bcd: int)
    requires 0 <= bcdIn < 0x1_0000 && IsBcd(bcdIn)
    ensures bcd == Pack(Corrected(Nibble(bcdIn, 0x1)), Corrected(Nibble(bcdIn, 0x10)),
                        Corrected(Nibble(bcdIn, 0x100)), Corrected(Nibble(bcdIn, 0x1000)))
  {
    bcd := bcdIn;
    ghost var n0, n1, n2, n3 := Nibble(bcd, 0x1), Nibble(bcd, 0x10), Nibble(bcd, 0x100), Nibble(bcd, 0x1000);
    ghost var m0, m1, m2, m3 := Corrected(n0), Corrected(n1), Corrected(n2), Corrected(n3);
    assert bcd == Pack(n0, n1, n2, n3) && Nibble(bcd, 0x1) == n0 by {
      Repack(bcd);
    }
    if Nibble(bcd, 0x1) * 0x1 >= 0x5 {
      bcd := bcd + 0x3;
    }
    assert bcd == Pack(m0, n1, n2, n3);
    assert Nibble(bcd, 0x10) == n1 by {
      Unpack(m0, n1, n2, n3);
    }
    if Nibble(bcd, 0x10) * 0x10 >= 0x50 {
      bcd := bcd + 0x30;
    }
    assert bcd == Pack(m0, m1, n2, n3);
    assert Nibble(bcd, 0x100) == n2 by {
      Unpack(m0, m1, n2, n3);
    }
    if Nibble(bcd, 0x100) * 0x100 >= 0x500 {
      bcd := bcd + 0x300;
    }
    assert bcd == Pack(m0, m1, m2, n3);
    assert Nibble(bcd, 0x1000) == n3 by {
      Unpack(m0, m1, m2, n3);
    }
    if Nibble(bcd, 0x1000) * 0x1000 >= 0x5000 {
      bcd := bcd + 0x3000;
    }
  }

  /**
   * The second half of the `lcd_unum` loop body: `bcd4:bcd` shifted left by
   * one with `bit` fed in at the bottom, on the 8-bit `bcd4` and the 16-bit
   * `bcd`. Applied to corrected digits `n0..n3` it yields BCD digits again,
   * and the number they stand for, with `bcd4` as ten-thousands, doubles plus `bit`.
   */
  method ShiftIn(bcdIn: int, bcd4In: int, bit: int, ghost n0: int, ghost n1: int, ghost n2: int, ghost n3: int)
    returns (bcd: int, bcd4: int)
    requires 0 <= n0 <= 9 && 0 <= n1 <= 9 && 0 <= n2 <= 9 && 0 <= n3 <= 9
    requires bcdIn == Pack(Corrected(n0), Corrected(n1), Corrected(n2), Corrected(n3))
    requires 0 <= bcd4In <= 6 && (bit == 0 || bit == 1)
    ensures 0 <= bcd < 0x1_0000 && IsBcd(bcd) && 0 <= bcd4 < 0x100
    ensures bcd4 * 10000 + BcdValue(bcd) == 2 * (bcd4In * 10000 + n0 + 10 * n1 + 100 * n2 + 1000 * n3) + bit
  {
    bcd, bcd4 := bcdIn, bcd4In;
    ShiftInBcd(bcdIn, bcd4In, bit, n0, n1, n2, n3);
    bcd4 := bcd4 * 2 % 0x100;
    bcd4 := bcd4 + (if bcd / 0x8000 % 2 == 1 then 1 else 0);
    bcd := bcd * 2 % 0x1_0000;
    bcd := bcd + bit;
  }

  /** The arithmetic behind `ShiftIn`, on the expressions the source computes. */
  lemma {:induction false} ShiftInBcd(bcdIn: int, bcd4In: int, bit: int, n0: int, n1: int, n2: int, n3: int)
    requires 0 <= n0 <= 9 && 0 <= n1 <= 9 && 0 <= n2 <= 9 && 0 <= n3 <= 9
    requires bcdIn == Pack(Corrected(n0), Corrected(n1), Corrected(n2), Corrected(n3))
    requires 0 <= bcd4In <= 6 && (bit == 0 || bit == 1)
    ensures var bcd4 := bcd4In * 2 % 0x100 + (if bcdIn / 0x8000 % 2 == 1 then 1 else 0);
            var bcd := bcdIn * 2 % 0x1_0000 + bit;
            && 0 <= bcd < 0x1_0000 && IsBcd(bcd) && 0 <= bcd4 < 0x100
            && bcd4 * 10000 + BcdValue(bcd) == 2 * (bcd4In * 10000 + n0 + 10 * n1 + 100 * n2 + 1000 * n3) + bit
  {
    var c0, r0 := DoubleAdjusted(n0, Corrected(n0));
    var c1, r1 := DoubleAdjusted(n1, Corrected(n1));
    var c2, r2 := DoubleAdjusted(n2, Corrected(n2));
    var c3, r3 := DoubleAdjusted(n3, Corrected(n3));
    ShiftInDigits(bcdIn, bcd4In, bit, n0, n1, n2, n3, Corrected(n0), Corrected(n1), Corrected(n2), Corrected(n3),
                  c0, c1, c2, c3, r0, r1, r2, r3);
  }

  /** `ShiftInBcd` in terms of the carry and the remainder of each doubled digit. */
  lemma {:induction false} ShiftInDigits(bcdIn: int, bcd4In: int, bit: int, n0: int, n1: int, n2: int, n3: int,
                                         m0: int, m1: int, m2: int, m3: int, c0: int, c1: int, c2: int, c3: int,
                                         r0: int, r1: int, r2: int, r3: int)
    requires 0 <= m0 < 16 && 0 <= m1 < 16 && 0 <= m2 < 16 && 0 <= m3 < 16
    requires 0 <= c0 <= 1 && 0 <= c1 <= 1 && 0 <= c2 <= 1 && 0 <= c3 <= 1 && 0 <= bit <= 1
    requires 0 <= r0 <= 8 && 0 <= r1 <= 8 && 0 <= r2 <= 8 && 0 <= r3 <= 8
    requires 2 * m0 == 16 * c0 + r0 && 2 * m1 == 16 * c1 + r1
    requires 2 * m2 == 16 * c2 + r2 && 2 * m3 == 16 * c3 + r3
    requires 2 * n0 == 10 * c0 + r0 && 2 * n1 == 10 * c1 + r1
    requires 2 * n2 == 10 * c2 + r2 && 2 * n3 == 10 * c3 + r3
    requires bcdIn == Pack(m0, m1, m2, m3) && 0 <= bcd4In <= 6
    ensures var bcd4 := bcd4In * 2 % 0x100 + (if bcdIn / 0x8000 % 2 == 1 then 1 else 0);
            var bcd := bcdIn * 2 % 0x1_0000 + bit;
            && 0 <= bcd < 0x1_0000 && IsBcd(bcd) && 0 <= bcd4 < 0x100
            && bcd4 * 10000 + BcdValue(bcd) == 2 * (bcd4In * 10000 + n0 + 10 * n1 + 100 * n2 + 1000 * n3) + bit
  {
    var bcd := bcdIn * 2 % 0x1_0000 + bit;
    ShiftNibbles(bcdIn, m0, m1, m2, m3, c0, c1, c2, c3, r0, r1, r2, r3, bit);
    DivModUnique(bcd4In * 2, 0x100, 0, 2 * bcd4In);
    PackedBcd(bcd, r0 + bit, r1 + c0, r2 + c1, r3 + c2);
  }




  lemma Pow2Sixteen()
    ensures Pow2(16) == 0x1_0000
  {
    assert Pow2(4) == 16;
    assert Pow2(8) == 256;
    assert Pow2(12) == 4096;
  }

  /** The five characters from zero: four spaces and '0'. */
  lemma UnumZero()
    ensures RightAligned(0) == [' ', ' ', ' ', ' ', '0']
  {
  }

  /** The largest `uint16_t` fills all five columns. */
  lemma UnumMax()
    ensures RightAligned(65535) == ['6', '5', '5', '3', '5']
  {
    assert Pow10(4) == 10000;
  }

  /**
   * `lcd_gotoxy(x, y)`: `y * 64 + x` is computed in `int` and passed to the
   * `unsigned char` parameter of `lcd_goto`, which keeps it modulo 256.
   */
  function GotoxyAddress(x: int, y: int): (pos: int)
    requires 0 <= x < 256 && 0 <= y < 256
    ensures 0 <= pos < 256
    ensures y * 64 + x < 256 ==> pos == y * 64 + x
  {
    (y * 64 + x) % 256
  }

  /**
   * On a two-line display, line `y` (0 or 1) starts at DDRAM address
   * `0x40 * y`; line 4 wraps back to the address of line 0.
   */
  lemma GotoxyLines(x: int, y: int)
    requires 0 <= x < 256 && 0 <= y < 252
    ensures x < 0x40 && y <= 1 ==> GotoxyAddress(x, y) == 0x40 * y + x
    ensures GotoxyAddress(x, y + 4) == GotoxyAddress(x, y)
  {
    DivModUnique(y * 64 + x + 256, 256, (y * 64 + x) / 256 + 1, (y * 64 + x) % 256);
  }

  /** `0x80 | pos` for an address below 0x80 is the "set DDRAM address" command `0x80 + pos`. */
  lemma GotoCommand(pos: bv8)
    requires pos < 0x80
    ensures (0x80 | pos) as int == 0x80 + pos as int
  {
  }

  /** Where the controller is in a byte: waiting for the high nibble, or holding it. */
  datatype Phase = AwaitHigh | HoldingHigh(hi: Latch)

  /** The port lines of the display, and what its controller has received. */
  class Display {
    var rs: bool
    var d7: bool
    var d6: bool
    var d5: bool
    var d4: bool
    ghost var phase: Phase
    /** The commands and characters the controller has received, oldest first. */
    ghost var received: seq<Transfer>

    /** Bytes are whole: the controller waits for a high nibble. */
    ghost predicate Valid()
      reads this
    {
      phase == AwaitHigh
    }

    constructor ()
      ensures Valid() && received == [] && !rs
    {
      rs, d7, d6, d5, d4 := false, false, false, false, false;
      phase, received := AwaitHigh, [];
    }

    /** D7..D4 read as a nibble. */
    function Lines(): (n: bv8)
      reads this
      ensures n < 16
    {
      LinesOf(d7, d6, d5, d4)
    }

    /**
     * `LCD_STROBE()`: raise and lower EN. The controller latches RS and D7..D4:
     * as the high nibble of a byte, or as the low nibble that completes it.
     */
    method Strobe()
      modifies this`phase, this`received
      ensures old(phase).AwaitHigh? ==>
                phase == HoldingHigh(Latch(rs, Lines())) && received == old(received)
      ensures old(phase).HoldingHigh? ==>
                phase == AwaitHigh && received == old(received) + [Combine(old(phase).hi, Latch(rs, Lines()))]
    {
      match phase
      case AwaitHigh =>
        phase := HoldingHigh(Latch(rs, Lines()));
      case HoldingHigh(hi) =>
        phase := AwaitHigh;
        received := received + [Combine(hi, Latch(rs, Lines()))];
    }

    /**
     * `lcd_write(c)`: bits 7..4 of `c` on D7..D4 and a strobe, then bits
     * 3..0 and a strobe. RS is left as the caller set it.
     */
    method Write(c: bv8)
      requires Valid()
      modifies this`d7, this`d6, this`d5, this`d4, this`phase, this`received
      ensures Valid()
      ensures received == old(received) + [if rs then Data(c) else Command(c)]
    {
      d7 := c & 0x80 != 0;
      d6 := c & 0x40 != 0;
      d5 := c & 0x20 != 0;
      d4 := c & 0x10 != 0;
      HighNibbleLines(c);
      Strobe();
      d7 := c & 0x08 != 0;
      d6 := c & 0x04 != 0;
      d5 := c & 0x02 != 0;
      d4 := c & 0x01 != 0;
      LowNibbleLines(c);
      Strobe();
      NibbleSplitRoundTrip(c, rs);
    }

    /** `lcd_cmd(cmd)`: RS low, so the byte goes to the instruction register. */
    method Cmd(cmd: bv8)
      requires Valid()
      modifies this`rs, this`d7, this`d6, this`d5, this`d4, this`phase, this`received
      ensures Valid() && !rs
      ensures received == old(received) + [Command(cmd)]
    {
      rs := false;
      Write(cmd);
    }

    /** `lcd_dat(dat)`: RS high, so the byte goes to the data register. */
    method Dat(dat: bv8)
      requires Valid()
      modifies this`rs, this`d7, this`d6, this`d5, this`d4, this`phase, this`received
      ensures Valid() && rs
      ensures received == old(received) + [Data(dat)]
    {
      rs := true;
      Write(dat);
    }

    /** `lcd_putch(c)`: RS high and the character code written. */
    method Putch(c: char)
      requires Valid() && IsByteChar(c)
      modifies this`rs, this`d7, this`d6, this`d5, this`d4, this`phase, this`received
      ensures Valid() && rs
      ensures received == old(received) + [Data(CharCode(c))]
    {
      rs := true;
      Write(CharCode(c));
    }

    /** `lcd_goto(pos)`: the "set DDRAM address" command `0x80 | pos`. */
    method Goto(pos: bv8)
      requires Valid()
      modifies this`rs, this`d7, this`d6, this`d5, this`d4, this`phase, this`received
      ensures Valid() && !rs
      ensures received == old(received) + [Command(0x80 | pos)]
    {
      rs := false;
      Write(0x80 | pos);
    }

    /** `lcd_gotoxy(x, y)`: `lcd_goto(y * 64 + x)`. */
    method Gotoxy(x: int, y: int)
      requires Valid() && 0 <= x < 256 && 0 <= y < 256
      modifies this`rs, this`d7, this`d6, this`d5, this`d4, this`phase, this`received
      ensures Valid() && !rs
      ensures received == old(received) + [Command(0x80 | GotoxyAddress(x, y) as bv8)]
    {
      Goto(((y * 64 + x) % 256) as bv8);
    }

    /** `lcd_unum3(num)`. */
    method Unum3(num: int)
      requires Valid() && 0 <= num < 0x100
      modifies this`rs, this`d7, this`d6, this`d5, this`d4, this`phase, this`received
      ensures Valid()
      ensures received == old(received) + Chars(Unum3Chars(num))
    {
      var s := Unum3Chars(num);
      Putch(s[0]);
      Putch(s[1]);
      Putch(s[2]);
      CharsOfThree(s);
    }

    /** `lcd_unum_hex(num)`. */
    method UnumHex(num: int)
      requires Valid() && 0 <= num < 0x1_0000
      modifies this`rs, this`d7, this`d6, this`d5, this`d4, this`phase, this`received
      ensures Valid()
      ensures received == old(received) + Chars(HexChars(num))
    {
      var s := HexChars(num);
      Putch(s[0]);
      Putch(s[1]);
      Putch(s[2]);
      Putch(s[3]);
      CharsOfFour(s);
    }

    /** `lcd_unum_hex_wBlanking(num)`. */
    method UnumHexBlanking(num: int)
      requires Valid() && 0 <= num < 0x1_0000
      modifies this`rs, this`d7, this`d6, this`d5, this`d4, this`phase, this`received
      ensures Valid()
      ensures received == old(received) + Chars(HexCharsBlanking(num))
    {
      var s := HexCharsBlanking(num);
      Putch(s[0]);
      Putch(s[1]);
      Putch(s[2]);
      Putch(s[3]);
      CharsOfFour(s);
    }

    /** `lcd_unum(num)`: five characters, `num` right-aligned. */
    method Unum(num: int)
      requires Valid() && 0 <= num < 0x1_0000
      modifies this`rs, this`d7, this`d6, this`d5, this`d4, this`phase, this`received
      ensures Valid()
      ensures received == old(received) + Chars(RightAligned(num))
    {
      var s := UnumDigits(num);
      Putch(s[0]);
      Putch(s[1]);
      Putch(s[2]);
      Putch(s[3]);
      Putch(s[4]);
      CharsOfFive(s);
    }
  }
}
