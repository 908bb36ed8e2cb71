/** UTF-8, as `Buffer.from(s, 'utf8')` encodes a string of Unicode scalar values. */
module Utf8 {
  /** How many bytes a sequence starting with lead byte `b` takes. */
  function LeadLength(b: int): int {
    if b < 0x80 then 1 else if b < 0xE0 then 2 else if b < 0xF0 then 3 else 4
  }

  predicate IsByte(b: int) { 0 <= b < 256 }

  /** The UTF-8 bytes of one character. */
  function EncodeChar(c: char): (r: seq<int>)
    ensures 1 <= |r| <= 4 && |r| == LeadLength(r[0])
    ensures forall k :: 0 <= k < |r| ==> IsByte(r[k])
  {
    var n := c as int;
    if n < 0x80 then [n]
    else if n < 0x800 then [0xC0 + n / 64, 0x80 + n % 64]
    else if n < 0x10000 then [0xE0 + n / 4096, 0x80 + (n / 64) % 64, 0x80 + n % 64]
    else [0xF0 + n / 262144, 0x80 + (n / 4096) % 64, 0x80 + (n / 64) % 64, 0x80 + n % 64]
  }

  /** The code point a one-character byte sequence stands for. */
  function DecodeChar(r: seq<int>): int
    requires 1 <= |r| <= 4
  {
    if |r| == 1 then r[0]
    else if |r| == 2 then (r[0] - 0xC0) * 64 + (r[1] - 0x80)
    else if |r| == 3 then (r[0] - 0xE0) * 4096 + (r[1] - 0x80) * 64 + (r[2] - 0x80)
    else (r[0] - 0xF0) * 262144 + (r[1] - 0x80) * 4096 + (r[2] - 0x80) * 64 + (r[3] - 0x80)
  }

  lemma DecodeEncodeChar(c: char)
    ensures DecodeChar(EncodeChar(c)) == c as int
  {
    var n := c as int;
    if 0x800 <= n < 0x10000 {
      assert n == (n / 4096) * 4096 + ((n / 64) % 64) * 64 + n % 64;
    } else if n >= 0x10000 {
      assert n == (n / 262144) * 262144 + ((n / 4096) % 64) * 4096 + ((n / 64) % 64) * 64 + n % 64;
    }
  }

  /** `Buffer.from(s, 'utf8')`. */
  function Encode(s: string): (r: seq<int>)
    ensures |r| >= |s|
    ensures forall k :: 0 <= k < |r| ==> IsByte(r[k])
  {
    if s == [] then [] else EncodeChar(s[0]) + Encode(s[1..])
  }

  /** Different strings have different bytes, so comparing the bytes compares the
      strings. */
  lemma {:induction false} EncodeInjective(a: string, b: string)
    requires Encode(a) == Encode(b)
    ensures a == b
  {
    if a != [] && b != [] {
      var ea, eb := EncodeChar(a[0]), EncodeChar(b[0]);
      assert Encode(a) == ea + Encode(a[1..]) && Encode(b) == eb + Encode(b[1..]);
      assert ea[0] == Encode(a)[0] == eb[0];
      assert ea == Encode(a)[..|ea|] == eb;
      DecodeEncodeChar(a[0]);
      DecodeEncodeChar(b[0]);
      assert a[0] == b[0];
      assert Encode(a[1..]) == Encode(a)[|ea|..] == Encode(b[1..]);
      EncodeInjective(a[1..], b[1..]);
    }
  }
}
