/**
 * Python's "charmap" codec used without a mapping table, which is Latin-1
 * (ISO/IEC 8859-1): byte b stands for code point b, and only code points below
 * 256 can be encoded.
 */
module Charmap {
  import opened Wrappers
  import opened PyObjects

  /** `b.decode("charmap")`: one character per byte, each with the byte's value as its code point. */
  function Decode(b: seq<byte>): (s: string)
    ensures |s| == |b|
    ensures forall i :: 0 <= i < |b| ==> s[i] as int == b[i] as int
  {
    seq(|b|, i requires 0 <= i < |b| => b[i] as int as char)
  }

  /** A string every character of which Latin-1 can represent. */
  predicate Encodable(s: string)
  {
    forall i :: 0 <= i < |s| ==> s[i] as int < 256
  }

  /** `s.encode("charmap")`: `None` stands for the `UnicodeEncodeError` raised for a code point of 256 or more. */
  function Encode(s: string): (r: Option<seq<byte>>)
    ensures r.Some? <==> Encodable(s)
    ensures r.Some? ==> |r.value| == |s|
  {
    if Encodable(s) then Some(seq(|s|, i requires 0 <= i < |s| => s[i] as int as byte)) else None
  }

  /** Every decoded string re-encodes, to exactly the bytes it came from. */
  lemma DecodeEncode(b: seq<byte>)
    ensures Encode(Decode(b)) == Some(b)
  {
    var s := Decode(b);
    assert Encodable(s);
    var e := Encode(s).value;
    assert |e| == |b|;
    forall i | 0 <= i < |b|
      ensures e[i] == b[i]
    {
      assert s[i] as int == b[i] as int;
    }
    assert e == b;
  }

  /** Every encodable string is the decoding of its encoding. */
  lemma EncodeDecode(s: string)
    requires Encodable(s)
    ensures Decode(Encode(s).value) == s
  {
    var d := Decode(Encode(s).value);
    assert forall i :: 0 <= i < |s| ==> d[i] == s[i];
  }

  /** Decoding is injective: different byte strings never give the same text. */
  lemma DecodeInjective(b1: seq<byte>, b2: seq<byte>)
    requires Decode(b1) == Decode(b2)
    ensures b1 == b2
  {
    DecodeEncode(b1);
    DecodeEncode(b2);
  }
}
