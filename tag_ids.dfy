/** The simulated scanner's tag identifiers and signal strengths.
    A tag ID is "E200" followed by the counter printed as eight upper-case
    hexadecimal digits (Java's `String.format("%08X", tagCount)`). */
module TagIds {

  datatype Option<T> = None | Some(value: T)

  /** Number of 32-bit patterns. A Java `int` is modelled by its two's-complement
      bit pattern, which is exactly what `%X` prints. */
  const Int32Span: nat := 0x1_0000_0000

  /** A Java `int` counter, as its unsigned 32-bit pattern. */
  type Counter = c: nat | c < Int32Span

  /** An offset drawn by `(int)(Math.random() * 30)`. */
  type RssiOffset = k: int | 0 <= k < 30

  const Prefix: string := "E200"

  predicate IsHexChar(c: char) {
    '0' <= c <= '9' || 'A' <= c <= 'F'
  }

  predicate AllHex(s: string) {
    forall i :: 0 <= i < |s| ==> IsHexChar(s[i])
  }

  function DigitValue(c: char): (d: nat)
    requires IsHexChar(c)
    ensures d < 16
  {
    if c <= '9' then c as int - '0' as int else c as int - 'A' as int + 10
  }

  /** The upper-case digit for a value below 16; `DigitValue` undoes it. */
  function DigitChar(d: nat): (c: char)
    requires d < 16
    ensures IsHexChar(c) && DigitValue(c) == d
  {
    if d < 10 then ('0' as int + d) as char else ('A' as int + d - 10) as char
  }

  lemma DigitCharOfValue(c: char)
    requires IsHexChar(c)
    ensures DigitChar(DigitValue(c)) == c
  {
  }

  function Pow16(k: nat): (p: nat)
    ensures p >= 1
  {
    if k == 0 then 1 else 16 * Pow16(k - 1)
  }

  lemma Pow16Eight()
    ensures Pow16(8) == Int32Span
  {
  }

  /** The k lowest hexadecimal digits of n, most significant first, zero-padded. */
  function HexDigits(n: nat, k: nat): (s: string)
    ensures |s| == k && AllHex(s)
  {
    if k == 0 then "" else HexDigits(n / 16, k - 1) + [DigitChar(n % 16)]
  }

  /** The value of a string of hexadecimal digits. */
  function HexValue(s: string): (n: nat)
    requires AllHex(s)
    ensures n < Pow16(|s|)
  {
    if s == "" then 0 else 16 * HexValue(s[..|s| - 1]) + DigitValue(s[|s| - 1])
  }

  /** Printing n in k digits and reading it back gives n, when n fits in k digits. */
  lemma {:induction false} HexValueOfDigits(n: nat, k: nat)
    requires n < Pow16(k)
    ensures HexValue(HexDigits(n, k)) == n
  {
    if k > 0 {
      var s := HexDigits(n, k);
      assert s[..k - 1] == HexDigits(n / 16, k - 1);
      HexValueOfDigits(n / 16, k - 1);
    }
  }

  /** Reading k digits and printing the value in k digits gives the same string. */
  lemma {:induction false} HexDigitsOfValue(s: string)
    requires AllHex(s)
    ensures HexDigits(HexValue(s), |s|) == s
  {
    if s != "" {
      var init, last := s[..|s| - 1], s[|s| - 1];
      var n := HexValue(s);
      assert n / 16 == HexValue(init) && n % 16 == DigitValue(last);
      HexDigitsOfValue(init);
      DigitCharOfValue(last);
      assert s == init + [last];
    }
  }

  /** The ID the simulated scanner builds from its counter (RFIDManager.java line 220). */
  function TagId(counter: Counter): (id: string)
    ensures |id| == 12 && id[..4] == Prefix && AllHex(id[4..])
  {
    Prefix + HexDigits(counter, 8)
  }

  /** Recovers the counter from a simulated tag ID; None for anything else. */
  function ParseTagId(id: string): (r: Option<Counter>)
    ensures r.Some? ==> |id| == 12 && id[..4] == Prefix
  {
    if |id| == 12 && id[..4] == Prefix && AllHex(id[4..]) then
      var v := HexValue(id[4..]);
      Pow16Eight();
      Some(v)
    else
      None
  }

  lemma ParseTagIdRoundTrip(counter: Counter)
    ensures ParseTagId(TagId(counter)) == Some(counter)
  {
    var id := TagId(counter);
    assert id[4..] == HexDigits(counter, 8);
    Pow16Eight();
    HexValueOfDigits(counter, 8);
  }

  lemma TagIdOfParse(id: string)
    requires ParseTagId(id).Some?
    ensures TagId(ParseTagId(id).value) == id
  {
    HexDigitsOfValue(id[4..]);
    assert id == id[..4] + id[4..];
  }

  /** Distinct counters give distinct tag IDs. */
  lemma TagIdInjective(a: Counter, b: Counter)
    requires a != b
    ensures TagId(a) != TagId(b)
  {
    ParseTagIdRoundTrip(a);
    ParseTagIdRoundTrip(b);
  }

  /** Java's `tagCount++` on an `int`: adds one, wrapping at 2^32 bit patterns. */
  function NextCounter(c: Counter): (r: Counter)
    ensures c + 1 < Int32Span ==> r == c + 1
    ensures c + 1 == Int32Span ==> r == 0
  {
    (c + 1) % Int32Span
  }

  /** The simulated signal strength for a random offset (RFIDManager.java line 221). */
  function Rssi(offset: RssiOffset): (r: int)
    ensures -79 <= r <= -50
    ensures offset == -50 - r
  {
    -50 - offset
  }
}
