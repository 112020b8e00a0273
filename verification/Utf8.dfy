/** UTF-8 as defined in section 3 of RFC 3629: every scalar value has one encoding of one to four bytes,
    and the strict decoder accepts nothing else. */
module Utf8 {
  import opened Text
  import opened Octets

  predicate IsScalar(n: int) {
    0 <= n < 0xD800 || 0xE000 <= n < 0x11_0000
  }

  /** A continuation byte, carrying six bits. */
  function Tail(bits: int): byte
    requires 0 <= bits < 64
  {
    (0x80 + bits) as byte
  }

  predicate IsTail(b: byte) {
    0x80 <= b < 0xC0
  }

  function Width(c: char): nat {
    var n := c as int;
    if n < 0x80 then 1 else if n < 0x800 then 2 else if n < 0x1_0000 then 3 else 4
  }

  function EncodeOne(c: char): (bs: seq<byte>)
    ensures |bs| == Width(c) && !IsTail(bs[0])
    ensures forall i | 0 < i < |bs| :: IsTail(bs[i])
  {
    var n := c as int;
    if n < 0x80 then [n as byte]
    else if n < 0x800 then [(0xC0 + n / 64) as byte, Tail(n % 64)]
    else if n < 0x1_0000 then [(0xE0 + n / 4096) as byte, Tail(n / 64 % 64), Tail(n % 64)]
    else [(0xF0 + n / 262_144) as byte, Tail(n / 4096 % 64), Tail(n / 64 % 64), Tail(n % 64)]
  }

  function Encode(text: string): seq<byte> {
    if text == [] then [] else EncodeOne(text[0]) + Encode(text[1..])
  }

  function Bits(b: byte): int {
    b as int - 0x80
  }

  /** The value of the first sequence, if it is well formed: no stray or missing continuation bytes, no
      overlong forms, no surrogates, nothing above 0x10FFFF. */
  function DecodeOne(bs: seq<byte>): Option<char> {
    if |bs| == 0 then None
    else if bs[0] < 0x80 then Some(bs[0] as int as char)
    else if |bs| < 2 || !IsTail(bs[1]) then None
    else if 0xC2 <= bs[0] < 0xE0 then Some(((bs[0] as int - 0xC0) * 64 + Bits(bs[1])) as char)
    else if |bs| < 3 || !IsTail(bs[2]) then None
    else if 0xE0 <= bs[0] < 0xF0 then
      var n := (bs[0] as int - 0xE0) * 4096 + Bits(bs[1]) * 64 + Bits(bs[2]);
      if n >= 0x800 && IsScalar(n) then Some(n as char) else None
    else if |bs| < 4 || !IsTail(bs[3]) then None
    else if 0xF0 <= bs[0] < 0xF5 then
      var n := (bs[0] as int - 0xF0) * 262_144 + Bits(bs[1]) * 4096 + Bits(bs[2]) * 64 + Bits(bs[3]);
      if n >= 0x1_0000 && IsScalar(n) then Some(n as char) else None
    else None
  }

  lemma Digits2(x: nat, y: nat)
    requires y < 64
    ensures (x * 64 + y) / 64 == x && (x * 64 + y) % 64 == y
  {
  }

  lemma Digits3(x: nat, y: nat, z: nat)
    requires y < 64 && z < 64
    ensures var n := x * 4096 + y * 64 + z; n / 4096 == x && n / 64 % 64 == y && n % 64 == z
  {
    Digits2(x * 64 + y, z);
  }

  lemma Digits4(w: nat, x: nat, y: nat, z: nat)
    requires x < 64 && y < 64 && z < 64
    ensures var n := w * 262_144 + x * 4096 + y * 64 + z;
      n / 262_144 == w && n / 4096 % 64 == x && n / 64 % 64 == y && n % 64 == z
  {
    Digits3(w * 64 + x, y, z);
  }

  lemma DecodeOneIsEncoded(bs: seq<byte>)
    requires DecodeOne(bs).Some?
    ensures Width(DecodeOne(bs).value) <= |bs|
    ensures EncodeOne(DecodeOne(bs).value) == bs[..Width(DecodeOne(bs).value)]
  {
    if bs[0] < 0x80 {
    } else if bs[0] < 0xE0 {
      Digits2(bs[0] as int - 0xC0, Bits(bs[1]));
    } else if bs[0] < 0xF0 {
      Digits3(bs[0] as int - 0xE0, Bits(bs[1]), Bits(bs[2]));
    } else {
      Digits4(bs[0] as int - 0xF0, Bits(bs[1]), Bits(bs[2]), Bits(bs[3]));
    }
  }

  lemma EncodedOneDecodes(c: char, rest: seq<byte>)
    ensures DecodeOne(EncodeOne(c) + rest) == Some(c)
  {
    var n := c as int;
    var bs := EncodeOne(c) + rest;
    assert forall i | 0 <= i < Width(c) :: bs[i] == EncodeOne(c)[i];
    if n < 0x80 {
    } else if n < 0x800 {
      assert n == (n / 64) * 64 + n % 64;
    } else if n < 0x1_0000 {
      assert n / 64 == (n / 4096) * 64 + n / 64 % 64;
    } else {
      assert n / 64 == (n / 262_144) * 4096 + (n / 4096 % 64) * 64 + n / 64 % 64;
    }
  }

  /** `bytes.decode("utf-8", errors="strict")`. */
  function Decode(bs: seq<byte>): Option<string>
    decreases |bs|
  {
    if bs == [] then Some([])
    else
      var c := DecodeOne(bs);
      if c.None? || Width(c.value) > |bs| then None
      else
        var rest := Decode(bs[Width(c.value)..]);
        if rest.None? then None else Some([c.value] + rest.value)
  }

  lemma {:induction false} DecodeEncoded(text: string)
    ensures Decode(Encode(text)) == Some(text)
  {
    hide EncodeOne, DecodeOne;
    if text != [] {
      var rest := Encode(text[1..]);
      EncodedOneDecodes(text[0], rest);
      OneDropped(text[0], rest);
      DecodeEncoded(text[1..]);
      assert text == [text[0]] + text[1..];
    }
  }

  lemma OneDropped(c: char, rest: seq<byte>)
    ensures |EncodeOne(c) + rest| >= Width(c) > 0 && (EncodeOne(c) + rest)[Width(c)..] == rest
  {
  }

  lemma {:induction false} EncodeDecoded(bs: seq<byte>)
    requires Decode(bs).Some?
    ensures Encode(Decode(bs).value) == bs
    decreases |bs|
  {
    hide EncodeOne, DecodeOne;
    if bs != [] {
      var c := DecodeOne(bs).value;
      DecodeOneIsEncoded(bs);
      EncodeDecoded(bs[Width(c)..]);
      assert bs == bs[..Width(c)] + bs[Width(c)..];
    }
  }
}
