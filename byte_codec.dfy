/**
 * `uInt8ArrayToString` (src/web/utils.ts): every byte of a `Uint8Array`
 * becomes the one character whose code point is that byte.
 */
module ByteCodec {
  import opened Wrappers

  /** An element of a `Uint8Array`. */
  type byte = b: int | 0 <= b < 256

  /** The text the codec produces: one character per byte, code points below 256. */
  predicate IsByteString(s: string)
  {
    forall i :: 0 <= i < |s| ==> s[i] as int < 256
  }

  /** `Array.from(array).map(byte => String.fromCharCode(byte)).join('')`. */
  function UInt8ArrayToString(bytes: seq<byte>): (s: string)
    ensures |s| == |bytes|
    ensures forall i :: 0 <= i < |bytes| ==> s[i] as int == bytes[i]
    ensures IsByteString(s)
  {
    if bytes == [] then ""
    else [bytes[0] as char] + UInt8ArrayToString(bytes[1..])
  }

  /** The inverse direction: code points back to bytes; `None` if some character is not a byte. */
  function StringToUInt8Array(s: string): (r: Option<seq<byte>>)
    ensures r.Some? <==> IsByteString(s)
    ensures r.Some? ==> |r.value| == |s| && forall i :: 0 <= i < |s| ==> r.value[i] == s[i] as int
  {
    if s == [] then Some([])
    else if s[0] as int >= 256 then None
    else match StringToUInt8Array(s[1..])
      case None => None
      case Some(rest) => Some([s[0] as int as byte] + rest)
  }

  /** The empty array maps to the empty string. */
  lemma EncodeEmpty()
    ensures UInt8ArrayToString([]) == ""
  {
  }

  /** The codec distributes over concatenation. */
  lemma {:induction false} EncodeConcat(a: seq<byte>, b: seq<byte>)
    ensures UInt8ArrayToString(a + b) == UInt8ArrayToString(a) + UInt8ArrayToString(b)
  {
    if a == [] {
      assert a + b == b;
    } else {
      assert (a + b)[1..] == a[1..] + b;
      EncodeConcat(a[1..], b);
    }
  }

  /** Decoding the encoding gives the bytes back, 0x00 and 0xFF included. */
  lemma {:induction false} DecodeEncode(bytes: seq<byte>)
    ensures StringToUInt8Array(UInt8ArrayToString(bytes)) == Some(bytes)
  {
    var r := StringToUInt8Array(UInt8ArrayToString(bytes));
    assert r.Some?;
    assert r.value == bytes;
  }

  /** Encoding the decoding gives the string back, so the codec is a bijection onto byte strings. */
  lemma {:induction false} EncodeDecode(s: string)
    requires IsByteString(s)
    ensures StringToUInt8Array(s).Some?
    ensures UInt8ArrayToString(StringToUInt8Array(s).value) == s
  {
    var b := StringToUInt8Array(s).value;
    assert UInt8ArrayToString(b) == s;
  }

  /** Two arrays with the same encoding are equal. */
  lemma EncodeInjective(a: seq<byte>, b: seq<byte>)
    requires UInt8ArrayToString(a) == UInt8ArrayToString(b)
    ensures a == b
  {
    DecodeEncode(a);
    DecodeEncode(b);
  }
}
