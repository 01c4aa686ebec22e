/** PHP's urlencode() and urldecode() (application/x-www-form-urlencoded). PHP strings are
    byte strings; a Dafny string stands for the UTF-8 bytes of its characters, and that is
    what gets percent-encoded. */
module UrlEncoding {

  newtype byte = x: int | 0 <= x < 256

  /** The UTF-8 encoding of one Unicode scalar value. */
  function Utf8(c: char): (r: seq<byte>)
    ensures 1 <= |r| <= 4
    ensures c as int < 128 ==> r == [c as int as byte]
    ensures c as int >= 128 ==> forall i :: 0 <= i < |r| ==> r[i] >= 128
  {
    var cp := c as int;
    if cp < 0x80 then [cp as byte]
    else if cp < 0x800 then [(0xC0 + cp / 64) as byte, (0x80 + cp % 64) as byte]
    else if cp < 0x10000 then
      [(0xE0 + cp / 4096) as byte, (0x80 + cp / 64 % 64) as byte, (0x80 + cp % 64) as byte]
    else
      [(0xF0 + cp / 262144) as byte, (0x80 + cp / 4096 % 64) as byte,
       (0x80 + cp / 64 % 64) as byte, (0x80 + cp % 64) as byte]
  }

  /** The bytes PHP holds for a UTF-8 string. */
  function Utf8Bytes(s: string): (r: seq<byte>)
    ensures |r| >= |s|
    decreases |s|
  {
    if s == "" then [] else Utf8(s[0]) + Utf8Bytes(s[1..])
  }

  /** ASCII letters and digits, '-', '_' and '.': the bytes urlencode passes through. */
  predicate IsUnreservedByte(b: byte) {
    48 <= b <= 57 || 65 <= b <= 90 || 97 <= b <= 122 || b == 45 || b == 95 || b == 46
  }

  predicate IsUnreservedChar(c: char) {
    c as int < 128 && IsUnreservedByte(c as int as byte)
  }

  predicate IsHexChar(c: char) {
    '0' <= c <= '9' || 'A' <= c <= 'F' || 'a' <= c <= 'f'
  }

  /** Upper-case hexadecimal digit, as urlencode writes it. */
  function HexDigit(d: int): (c: char)
    requires 0 <= d < 16
    ensures IsHexChar(c) && IsUnreservedChar(c)
  {
    if d < 10 then ('0' as int + d) as char else ('A' as int + d - 10) as char
  }

  function HexValue(c: char): (d: int)
    requires IsHexChar(c)
    ensures 0 <= d < 16
  {
    if '0' <= c <= '9' then c as int - '0' as int
    else if 'A' <= c <= 'F' then c as int - 'A' as int + 10
    else c as int - 'a' as int + 10
  }

  /** A character urlencode can produce: an unreserved one, '+' or '%'. */
  predicate IsEncodedChar(c: char) {
    IsUnreservedChar(c) || c == '+' || c == '%'
  }

  /** One byte of urlencode's output: unreserved bytes as themselves, the space as '+', every
      other byte as '%' and two upper-case hex digits. */
  function EncodeByte(b: byte): (r: string)
    ensures IsUnreservedByte(b) ==> r == [b as int as char]
    ensures b == 32 ==> r == "+"
    ensures !IsUnreservedByte(b) && b != 32 ==>
              |r| == 3 && r[0] == '%' && IsHexChar(r[1]) && IsHexChar(r[2])
              && HexValue(r[1]) * 16 + HexValue(r[2]) == b as int
    ensures forall i :: 0 <= i < |r| ==> IsEncodedChar(r[i])
  {
    if IsUnreservedByte(b) then [b as int as char]
    else if b == 32 then "+"
    else
      var hi, lo := HexDigit(b as int / 16), HexDigit(b as int % 16);
      assert HexValue(hi) == b as int / 16 && HexValue(lo) == b as int % 16;
      ['%', hi, lo]
  }

  function UrlEncodeBytes(bs: seq<byte>): (r: string)
    ensures forall i :: 0 <= i < |r| ==> IsEncodedChar(r[i])
    decreases |bs|
  {
    if bs == [] then "" else EncodeByte(bs[0]) + UrlEncodeBytes(bs[1..])
  }

  /** PHP's urlencode(). Its output is made only of unreserved characters, '+' and '%', so it
      never holds the '&', '=' or '|' that the query string and the marker syntax use. */
  function UrlEncode(s: string): (r: string)
    ensures forall i :: 0 <= i < |r| ==> IsEncodedChar(r[i])
    ensures '&' !in r && '=' !in r && '|' !in r
  {
    var r := UrlEncodeBytes(Utf8Bytes(s));
    assert forall i :: 0 <= i < |r| ==> r[i] != '&' && r[i] != '=' && r[i] != '|' by {
      forall i | 0 <= i < |r| ensures r[i] != '&' && r[i] != '=' && r[i] != '|' {
        assert IsEncodedChar(r[i]);
      }
    }
    r
  }

  /** PHP's urldecode(): '+' is a space, '%' with two hex digits (either case) is that byte,
      and any other character stands for its own bytes. */
  function UrlDecode(t: string): seq<byte>
    decreases |t|
  {
    if t == "" then []
    else if t[0] == '+' then [32 as byte] + UrlDecode(t[1..])
    else if t[0] == '%' && |t| >= 3 && IsHexChar(t[1]) && IsHexChar(t[2]) then
      [(HexValue(t[1]) * 16 + HexValue(t[2])) as byte] + UrlDecode(t[3..])
    else Utf8(t[0]) + UrlDecode(t[1..])
  }

  /** Decoding one encoded byte in front of any rest gives that byte in front of the rest. */
  lemma DecodeEncodedByte(b: byte, tail: string)
    ensures UrlDecode(EncodeByte(b) + tail) == [b] + UrlDecode(tail)
  {
    var t := EncodeByte(b) + tail;
    if IsUnreservedByte(b) {
      assert t[0] == b as int as char && t[1..] == tail;
    } else if b == 32 {
      assert t[1..] == tail;
    } else {
      assert t[3..] == tail;
    }
  }

  /** urldecode undoes urlencode, byte for byte. */
  lemma {:induction false} DecodeEncodeBytes(bs: seq<byte>)
    ensures UrlDecode(UrlEncodeBytes(bs)) == bs
    decreases |bs|
  {
    if bs != [] {
      DecodeEncodedByte(bs[0], UrlEncodeBytes(bs[1..]));
      DecodeEncodeBytes(bs[1..]);
    }
  }

  /** urldecode(urlencode($s)) gives back the bytes of $s. */
  lemma UrlRoundTrip(s: string)
    ensures UrlDecode(UrlEncode(s)) == Utf8Bytes(s)
  {
    DecodeEncodeBytes(Utf8Bytes(s));
  }

  /** A string made only of unreserved ASCII characters is its own encoding. */
  lemma {:induction false} UrlEncodeUnreserved(s: string)
    requires forall i :: 0 <= i < |s| ==> IsUnreservedChar(s[i])
    ensures UrlEncode(s) == s
    decreases |s|
  {
    if s != "" {
      UrlEncodeUnreserved(s[1..]);
      assert Utf8Bytes(s) == [s[0] as int as byte] + Utf8Bytes(s[1..]);
      assert [s[0]] + s[1..] == s;
    }
  }
}
