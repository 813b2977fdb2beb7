/**
  The byte view of a Rust `&str`: `str::as_bytes` hands out the UTF-8 encoding of
  the string. Dafny's `char` is a Unicode scalar value, so a `string` is exactly
  what a Rust `str` holds. The decoder `FromUtf8` (Rust's `str::from_utf8`) is the
  partner that shows the encoding loses nothing.
*/
module Utf8 {
  import opened Options

  type Byte = b: int | 0 <= b < 256
  type Bytes = seq<Byte>

  /** Number of bytes UTF-8 spends on one scalar value. */
  function Width(c: char): (w: nat)
    ensures 1 <= w <= 4
    ensures w == 1 <==> (c as int) < 0x80
  {
    var v := c as int;
    if v < 0x80 then 1 else if v < 0x800 then 2 else if v < 0x10000 then 3 else 4
  }

  /** The bytes 10xxxxxx that follow the leading byte of a multi-byte sequence. */
  predicate IsContinuation(b: Byte) {
    0x80 <= b < 0xC0
  }

  /** The UTF-8 sequence of one scalar value: a leading byte, then continuation bytes. */
  function EncodeChar(c: char): (r: Bytes)
    ensures |r| == Width(c)
    ensures !IsContinuation(r[0])
    ensures forall i :: 1 <= i < |r| ==> IsContinuation(r[i])
  {
    var v := c as int;
    if v < 0x80 then [v]
    else if v < 0x800 then [0xC0 + v / 64, 0x80 + v % 64]
    else if v < 0x10000 then [0xE0 + v / 4096, 0x80 + (v / 64) % 64, 0x80 + v % 64]
    else [0xF0 + v / 262144, 0x80 + (v / 4096) % 64, 0x80 + (v / 64) % 64, 0x80 + v % 64]
  }

  /** `str::as_bytes`: the concatenated UTF-8 sequences of the characters. */
  function AsBytes(s: string): (r: Bytes)
    ensures |s| <= |r| <= 4 * |s|
    ensures (forall i :: 0 <= i < |s| ==> (s[i] as int) < 0x80) ==> |r| == |s|
  {
    if s == [] then [] else EncodeChar(s[0]) + AsBytes(s[1..])
  }

  /**
    Decodes the scalar value at the head of `b` and says how many bytes it took;
    None when the head is not a well-formed UTF-8 sequence (a stray continuation
    byte, a truncated sequence, an overlong form, a surrogate, a value past U+10FFFF).
  */
  function DecodeFirst(b: Bytes): (r: Option<(char, nat)>)
    requires |b| > 0
    ensures r.Some? ==> 1 <= r.value.1 <= |b|
    ensures r.Some? ==> r.value.1 == Width(r.value.0)
  {
    var b0: int := b[0];
    if b0 < 0x80 then
      Some((b0 as char, 1))
    else if 0xC0 <= b0 < 0xE0 && |b| >= 2 && IsContinuation(b[1]) then
      var v := (b0 - 0xC0) * 64 + (b[1] as int - 0x80);
      if 0x80 <= v then Some((v as char, 2)) else None
    else if 0xE0 <= b0 < 0xF0 && |b| >= 3 && IsContinuation(b[1]) && IsContinuation(b[2]) then
      var v := (b0 - 0xE0) * 4096 + (b[1] as int - 0x80) * 64 + (b[2] as int - 0x80);
      if 0x800 <= v && !(0xD800 <= v < 0xE000) then Some((v as char, 3)) else None
    else if 0xF0 <= b0 < 0xF8 && |b| >= 4 && IsContinuation(b[1]) && IsContinuation(b[2]) && IsContinuation(b[3]) then
      var v := (b0 - 0xF0) * 262144 + (b[1] as int - 0x80) * 4096 + (b[2] as int - 0x80) * 64 + (b[3] as int - 0x80);
      if 0x10000 <= v < 0x110000 then Some((v as char, 4)) else None
    else
      None
  }

  /** `str::from_utf8`: the string whose UTF-8 encoding `b` is, if there is one. */
  function FromUtf8(b: Bytes): (r: Option<string>)
    decreases |b|
  {
    if b == [] then Some([])
    else
      match DecodeFirst(b)
      case None => None
      case Some((c, n)) =>
        match FromUtf8(b[n..])
        case None => None
        case Some(rest) => Some([c] + rest)
  }

  /** Decoding undoes the encoding of one character, whatever follows it. */
  lemma DecodeEncodedChar(c: char, rest: Bytes)
    ensures DecodeFirst(EncodeChar(c) + rest) == Some((c, Width(c)))
  {
    var v := c as int;
    var b := EncodeChar(c) + rest;
    if v < 0x80 {
    } else if v < 0x800 {
      assert (b[0] as int - 0xC0) * 64 + (b[1] as int - 0x80) == v;
    } else if v < 0x10000 {
      assert (v / 64) / 64 == v / 4096;
      assert (b[0] as int - 0xE0) * 4096 + (b[1] as int - 0x80) * 64 + (b[2] as int - 0x80) == v;
    } else {
      assert (v / 64) / 64 == v / 4096;
      assert (v / 4096) / 64 == v / 262144;
      assert (b[0] as int - 0xF0) * 262144 + (b[1] as int - 0x80) * 4096 + (b[2] as int - 0x80) * 64 + (b[3] as int - 0x80) == v;
    }
  }

  /** Round trip: decoding the bytes of a string gives the string back. */
  lemma {:induction false} FromUtf8AsBytes(s: string)
    ensures FromUtf8(AsBytes(s)) == Some(s)
  {
    if s != [] {
      var head, tail := EncodeChar(s[0]), AsBytes(s[1..]);
      DecodeEncodedChar(s[0], tail);
      assert AsBytes(s) == head + tail;
      assert (head + tail)[|head|..] == tail;
      FromUtf8AsBytes(s[1..]);
      assert [s[0]] + s[1..] == s;
    }
  }

  /** Distinct strings have distinct bytes, so a message built from `as_bytes` pins down the string. */
  lemma AsBytesInjective(s: string, t: string)
    requires AsBytes(s) == AsBytes(t)
    ensures s == t
  {
    FromUtf8AsBytes(s);
    FromUtf8AsBytes(t);
  }
}
