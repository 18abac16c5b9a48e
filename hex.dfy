/** Lower-case hexadecimal rendering of byte arrays, as `ToMD5`/`ToSHA1`
    use it to print a digest: two characters per byte, high nibble first. */
module Hex {
  import opened Common

  /** `NibbleToHex(byte nibble)`: the lower-case hex digit of a nibble,
      one that reads back as the nibble. The source applies it to nibbles
      only; for larger bytes it keeps counting past 'f', so the character
      is no hex digit at all. */
  function NibbleToHex(nibble: UInt8): (c: Char16)
    ensures nibble < 10 ==> 0x30 <= c <= 0x39                // '0'..'9'
    ensures 10 <= nibble < 16 ==> 0x61 <= c <= 0x66          // 'a'..'f'
    ensures nibble < 16 ==> HexDigitValue(c) == Some(nibble)
    ensures nibble >= 16 ==> HexDigitValue(c).None?
  {
    if nibble < 10 then (nibble + 0x30) as int as Char16
    else ((nibble - 10) as int + 0x61) as Char16
  }

  /** The value of a lower-case hexadecimal digit, if `c` is one. */
  function HexDigitValue(c: Char16): (r: Option<UInt8>)
    ensures r.Some? ==> r.value < 16
  {
    if 0x30 <= c <= 0x39 then Some((c - 0x30) as int as UInt8)
    else if 0x61 <= c <= 0x66 then Some((c - 0x61 + 10) as int as UInt8)
    else None
  }

  /** The two characters `ByteToString` writes for one byte. */
  function ByteHex(b: UInt8): String16 {
    [NibbleToHex(b / 16), NibbleToHex(b % 16)]
  }

  /** The text `ByteToString` produces for `bytes`. */
  function HexOf(bytes: seq<UInt8>): (s: String16)
    ensures |s| == 2 * |bytes|
  {
    if bytes == [] then [] else HexOf(bytes[..|bytes| - 1]) + ByteHex(bytes[|bytes| - 1])
  }

  /** The reverse reading: pairs of lower-case hex digits back to bytes. */
  function ParseHex(s: String16): Option<seq<UInt8>>
    decreases |s|
  {
    if s == [] then Some([])
    else if |s| == 1 then None
    else
      match (HexDigitValue(s[0]), HexDigitValue(s[1]), ParseHex(s[2..]))
      case (Some(hi), Some(lo), Some(rest)) => Some([(hi as int * 16 + lo as int) as UInt8] + rest)
      case _ => None
  }

  lemma HexOfCons(b: UInt8, bytes: seq<UInt8>)
    ensures HexOf([b] + bytes) == ByteHex(b) + HexOf(bytes)
    decreases |bytes|
  {
    if bytes != [] {
      var n := |bytes| - 1;
      assert ([b] + bytes)[..n + 1] == [b] + bytes[..n];
      HexOfCons(b, bytes[..n]);
    }
  }

  /** Reading the hex text back gives the original bytes. */
  lemma {:induction false} ParseHexOf(bytes: seq<UInt8>)
    ensures ParseHex(HexOf(bytes)) == Some(bytes)
    decreases |bytes|
  {
    if bytes != [] {
      var b := bytes[0];
      HexOfCons(b, bytes[1..]);
      assert [b] + bytes[1..] == bytes;
      var s := HexOf(bytes);
      assert s[2..] == HexOf(bytes[1..]);
      ParseHexOf(bytes[1..]);
    }
  }

  /** `ByteToString(data, offset, count)`: null for a null array; otherwise
      the `count` bytes from `offset` as hex, written into a `char[]` with
      a byte index `i` and a character index `j`. With `count` 0 no byte
      is read, so the text is empty whatever `offset` is. */
  method ByteToString(data: array?<UInt8>, offset: int, count: int) returns (r: Option<String16>)
    requires data != null ==> 0 <= count && (count > 0 ==> 0 <= offset && offset + count <= data.Length)
    ensures data == null <==> r.None?
    ensures data != null && count == 0 ==> r == Some([])
    ensures data != null && count > 0 ==> r == Some(HexOf(data[offset..offset + count]))
  {
    if data == null {
      return None;
    }
    var chArray := new Char16[count * 2];
    var end := offset + count;
    var i, j := offset, 0;
    while i < end
      invariant offset <= i <= end && j == 2 * (i - offset)
      invariant count > 0 ==> chArray[..j] == HexOf(data[offset..i])
    {
      ghost var written := chArray[..j];
      var num2 := data[i];
      chArray[j] := NibbleToHex(num2 / 16);
      j := j + 1;
      chArray[j] := NibbleToHex(num2 % 16);
      j := j + 1;
      assert chArray[..j] == written + ByteHex(num2);
      assert data[offset..i + 1] == data[offset..i] + [num2];
      i := i + 1;
    }
    assert chArray[..] == chArray[..j];
    return Some(chArray[..]);
  }

  /** `ByteToString(byte[] data)`: the whole array. */
  method AllBytesToString(data: array?<UInt8>) returns (r: Option<String16>)
    ensures data == null <==> r.None?
    ensures data != null ==> r == Some(HexOf(data[..]))
  {
    if data == null {
      return None;
    }
    r := ByteToString(data, 0, data.Length);
    assert data[0..data.Length] == data[..];
  }
}
