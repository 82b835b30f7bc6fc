/**
 * The PHP building blocks the installer relies on: strings, nullable values,
 * `implode`, `strpos(...) !== false`, `bin2hex` and PHP truthiness of a
 * nullable string.
 */
module Prelude {

  type String = seq<char>

  datatype Option<+T> = None | Some(value: T) {
    /** `$x ?? $default` */
    function GetOr(default: T): T {
      match this
      case Some(v) => v
      case None => default
    }
  }

  /** A PHP `null` used in string concatenation reads as the empty string. */
  function OrEmpty(s: Option<String>): String {
    s.GetOr("")
  }

  /** `implode($sep, $parts)` */
  function Implode(parts: seq<String>, sep: String): String
    decreases |parts|
  {
    if |parts| == 0 then ""
    else if |parts| == 1 then parts[0]
    else parts[0] + sep + Implode(parts[1..], sep)
  }

  /** `strpos($haystack, $needle) !== false` for a non-empty needle. */
  predicate Contains(haystack: String, needle: String)
    decreases |haystack|
  {
    |needle| <= |haystack| &&
    (haystack[..|needle|] == needle || Contains(haystack[1..], needle))
  }

  /** The first position of `c` in `s`, if any (`strpos` on one character). */
  function IndexOf(s: String, c: char): (r: Option<nat>)
    ensures r.Some? ==> r.value < |s| && s[r.value] == c && c !in s[..r.value]
    ensures r.None? ==> c !in s
    decreases |s|
  {
    if |s| == 0 then None
    else if s[0] == c then Some(0)
    else match IndexOf(s[1..], c)
      case None => None
      case Some(i) =>
        assert s[1..][..i] == s[1..i + 1];
        Some(i + 1)
  }

  /** If `x` has no `c` and `y` starts with `c`, the first `c` of `x + y` is at `|x|`. */
  lemma IndexOfAfter(x: String, y: String, c: char)
    requires c !in x && |y| > 0 && y[0] == c
    ensures IndexOf(x + y, c) == Some(|x|)
  {
    var s := x + y;
    assert s[|x|] == c;
    assert s[..|x|] == x;
  }

  /** PHP truthiness of a `?string`: `null`, `""` and `"0"` are false. */
  predicate Truthy(s: Option<String>) {
    s.Some? && s.value != "" && s.value != "0"
  }

  newtype byte = x: int | 0 <= x < 256

  const HexDigits: String := "0123456789abcdef"

  predicate IsHexDigit(c: char) {
    '0' <= c <= '9' || 'a' <= c <= 'f'
  }

  /** `bin2hex($bytes)`: two lower-case hexadecimal digits per byte, high nibble first. */
  function Bin2Hex(bytes: seq<byte>): (r: String)
    ensures |r| == 2 * |bytes|
    ensures forall i :: 0 <= i < |r| ==> IsHexDigit(r[i])
    decreases |bytes|
  {
    if |bytes| == 0 then ""
    else
      var b := bytes[0] as int;
      [HexDigits[b / 16], HexDigits[b % 16]] + Bin2Hex(bytes[1..])
  }

  /** The value of one lower-case hexadecimal digit. */
  function HexValue(c: char): (v: nat)
    ensures v < 16
  {
    if '0' <= c <= '9' then (c as int) - ('0' as int)
    else if 'a' <= c <= 'f' then (c as int) - ('a' as int) + 10
    else 0
  }

  /** `hex2bin($s)` on a string of even length made of lower-case digits. */
  function Hex2Bin(s: String): seq<byte>
    decreases |s|
  {
    if |s| < 2 then []
    else [(16 * HexValue(s[0]) + HexValue(s[1])) as byte] + Hex2Bin(s[2..])
  }

  lemma HexDigitValue(n: nat)
    requires n < 16
    ensures IsHexDigit(HexDigits[n]) && HexValue(HexDigits[n]) == n
  {
  }

  /** `bin2hex` loses nothing: `hex2bin` recovers the bytes. */
  lemma {:induction false} Hex2BinBin2Hex(bytes: seq<byte>)
    ensures Hex2Bin(Bin2Hex(bytes)) == bytes
    decreases |bytes|
  {
    if |bytes| > 0 {
      var b := bytes[0] as int;
      var hi, lo := b / 16, b % 16;
      var rest := Bin2Hex(bytes[1..]);
      var h := [HexDigits[hi], HexDigits[lo]] + rest;
      assert Bin2Hex(bytes) == h;
      HexDigitValue(hi);
      HexDigitValue(lo);
      assert h[0] == HexDigits[hi] && h[1] == HexDigits[lo] && h[2..] == rest;
      assert 16 * hi + lo == b;
      assert Hex2Bin(h) == [bytes[0]] + Hex2Bin(rest);
      Hex2BinBin2Hex(bytes[1..]);
    }
  }
}
