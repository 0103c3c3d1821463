/** UTF-8 encoding of Unicode scalar values (what `Buffer.from(s, "utf8")` and
    `Buffer.byteLength(s, "utf8")` compute for a well-formed string). */
module Utf8 {

  type byte = x: int | 0 <= x < 256

  /** The bytes of one scalar value. */
  function EncodeChar(c: char): (r: seq<byte>)
    ensures 1 <= |r| <= 4
    ensures (c as int < 0x80) <==> |r| == 1
    ensures |r| == 1 ==> r[0] == c as int
    ensures r[0] < 0x80 || r[0] >= 0xC0
    ensures forall i :: 1 <= i < |r| ==> 0x80 <= r[i] < 0xC0
  {
    var cp := c as int;
    if cp < 0x80 then [cp]
    else if cp < 0x800 then [0xC0 + cp / 64, 0x80 + cp % 64]
    else if cp < 0x10000 then [0xE0 + cp / 4096, 0x80 + (cp / 64) % 64, 0x80 + cp % 64]
    else [0xF0 + cp / 262144, 0x80 + (cp / 4096) % 64, 0x80 + (cp / 64) % 64, 0x80 + cp % 64]
  }

  function Encode(s: string): (r: seq<byte>)
  {
    if s == [] then [] else Encode(s[..|s| - 1]) + EncodeChar(s[|s| - 1])
  }

  /** `Buffer.byteLength(s, "utf8")` */
  function ByteLength(s: string): (n: nat)
    ensures n == |Encode(s)|
    ensures |s| <= n <= 4 * |s|
  {
    if s == [] then 0 else ByteLength(s[..|s| - 1]) + |EncodeChar(s[|s| - 1])|
  }

  lemma {:induction false} EncodeAppend(a: string, b: string)
    ensures Encode(a + b) == Encode(a) + Encode(b)
    decreases |b|
  {
    if b == [] {
      assert a + b == a;
    } else {
      var b' := b[..|b| - 1];
      assert (a + b)[..|a + b| - 1] == a + b';
      EncodeAppend(a, b');
    }
  }

  predicate IsAscii(s: string) {
    forall i :: 0 <= i < |s| ==> s[i] as int < 0x80
  }

  /** An ASCII string encodes to its own code units, one byte each. */
  lemma {:induction false} EncodeAscii(s: string)
    requires IsAscii(s)
    ensures |Encode(s)| == |s|
    ensures forall i :: 0 <= i < |s| ==> Encode(s)[i] == s[i] as int
  {
    if s != [] {
      EncodeAscii(s[..|s| - 1]);
    }
  }

  /** The first byte of the encoding is `{` (123) exactly when the string starts with `{`. */
  lemma FirstByteBrace(s: string)
    ensures (|Encode(s)| > 0 && Encode(s)[0] == 123) <==> (|s| > 0 && s[0] == '{')
  {
    if s != [] {
      EncodeAppend([s[0]], s[1..]);
      assert [s[0]] + s[1..] == s;
      assert Encode([s[0]]) == EncodeChar(s[0]) by {
        assert [s[0]][..0] == [];
      }
    }
  }
}
