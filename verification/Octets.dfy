/** Bytes, big-endian numbers, and records of such numbers with fixed widths. */
module Octets {

  newtype byte = n: int | 0 <= n < 256

  const MAX_U16: nat := 0xFFFF
  const MAX_U32: nat := 0xFFFF_FFFF
  const MAX_U64: nat := 0xFFFF_FFFF_FFFF_FFFF

  /** The number can be written with `width` bytes. */
  predicate FitsIn(n: nat, width: nat) {
    if width == 0 then n == 0 else FitsIn(n / 256, width - 1)
  }

  function Write(n: nat, width: nat): (bs: seq<byte>)
    ensures |bs| == width
  {
    if width == 0 then [] else Write(n / 256, width - 1) + [(n % 256) as byte]
  }

  function Read(bs: seq<byte>): nat {
    if bs == [] then 0 else Read(bs[..|bs| - 1]) * 256 + bs[|bs| - 1] as int
  }

  lemma {:induction false} ReadWritten(n: nat, width: nat)
    requires FitsIn(n, width)
    ensures Read(Write(n, width)) == n
  {
    if width > 0 {
      ReadWritten(n / 256, width - 1);
      assert Write(n, width)[..width - 1] == Write(n / 256, width - 1);
    }
  }

  lemma {:induction false} WriteRead(bs: seq<byte>)
    ensures FitsIn(Read(bs), |bs|) && Write(Read(bs), |bs|) == bs
  {
    if bs != [] {
      var k := |bs| - 1;
      WriteRead(bs[..k]);
      assert Read(bs) / 256 == Read(bs[..k]) && Read(bs) % 256 == bs[k] as int;
      assert bs == bs[..k] + [bs[k]];
    }
  }

  function Sum(widths: seq<nat>): nat {
    if widths == [] then 0 else widths[0] + Sum(widths[1..])
  }

  predicate AllFit(widths: seq<nat>, values: seq<nat>) {
    |widths| == |values| && forall i | 0 <= i < |widths| :: FitsIn(values[i], widths[i])
  }

  /** One number after the other, each with its width. */
  function Pack(widths: seq<nat>, values: seq<nat>): (bs: seq<byte>)
    requires |widths| == |values|
    ensures |bs| == Sum(widths)
  {
    if widths == [] then [] else Write(values[0], widths[0]) + Pack(widths[1..], values[1..])
  }

  function Unpack(widths: seq<nat>, bs: seq<byte>): (values: seq<nat>)
    requires |bs| >= Sum(widths)
    ensures |values| == |widths|
  {
    if widths == [] then [] else [Read(bs[..widths[0]])] + Unpack(widths[1..], bs[widths[0]..])
  }

  lemma {:induction false} UnpackPacked(widths: seq<nat>, values: seq<nat>, rest: seq<byte>)
    requires AllFit(widths, values)
    ensures Unpack(widths, Pack(widths, values) + rest) == values
  {
    hide Write, Read, FitsIn;
    if widths != [] {
      var head, tail := Write(values[0], widths[0]), Pack(widths[1..], values[1..]);
      var bs := Pack(widths, values) + rest;
      assert bs[..widths[0]] == head && bs[widths[0]..] == tail + rest;
      ReadWritten(values[0], widths[0]);
      UnpackPacked(widths[1..], values[1..], rest);
      assert values == [values[0]] + values[1..];
    }
  }

  lemma {:induction false} PackUnpacked(widths: seq<nat>, bs: seq<byte>)
    requires |bs| >= Sum(widths)
    ensures AllFit(widths, Unpack(widths, bs)) && Pack(widths, Unpack(widths, bs)) == bs[..Sum(widths)]
  {
    hide Write, Read, FitsIn;
    if widths != [] {
      var w := widths[0];
      var values := Unpack(widths, bs);
      WriteRead(bs[..w]);
      PackUnpacked(widths[1..], bs[w..]);
      assert values[0] == Read(bs[..w]) && values[1..] == Unpack(widths[1..], bs[w..]);
      assert bs[..w] + bs[w..][..Sum(widths[1..])] == bs[..Sum(widths)];
      AllFitCons(widths, values);
    }
  }

  lemma AllFitCons(widths: seq<nat>, values: seq<nat>)
    requires widths != [] && |widths| == |values| && FitsIn(values[0], widths[0]) && AllFit(widths[1..], values[1..])
    ensures AllFit(widths, values)
  {
    hide FitsIn;
    forall i | 0 <= i < |widths| ensures FitsIn(values[i], widths[i]) {
      if i > 0 {
        assert values[i] == values[1..][i - 1] && widths[i] == widths[1..][i - 1];
      }
    }
  }

  lemma Fits1(n: nat)
    ensures FitsIn(n, 1) <==> n < 256
  {
    assert FitsIn(n / 256, 0) <==> n / 256 == 0;
  }

  lemma Fits2(n: nat)
    ensures FitsIn(n, 2) <==> n <= MAX_U16
  {
    Fits1(n / 256);
  }

  lemma Fits4(n: nat)
    ensures FitsIn(n, 4) <==> n <= MAX_U32
  {
    Fits2(n / 256 / 256);
    assert FitsIn(n, 4) <==> FitsIn(n / 256, 3);
  }

  lemma Fits8(n: nat)
    ensures FitsIn(n, 8) <==> n <= MAX_U64
  {
    var m := n / 256 / 256 / 256 / 256;
    Fits4(m);
    assert FitsIn(n, 8) <==> FitsIn(n / 256, 7);
    assert FitsIn(n / 256, 7) <==> FitsIn(n / 256 / 256, 6);
    assert FitsIn(n / 256 / 256, 6) <==> FitsIn(n / 256 / 256 / 256, 5);
    assert FitsIn(n / 256 / 256 / 256, 5) <==> FitsIn(m, 4);
  }

  // ---- Where a number stands ----

  lemma {:induction false} SumSnoc(widths: seq<nat>, i: nat)
    requires i < |widths|
    ensures Sum(widths[..i + 1]) == Sum(widths[..i]) + widths[i]
  {
    if i == 0 {
      assert widths[..1][1..] == [] && widths[..0] == [];
      assert Sum(widths[..1]) == widths[0] + Sum([]);
    } else {
      SumSnoc(widths[1..], i - 1);
      assert widths[..i + 1][1..] == widths[1..][..i] && widths[..i][1..] == widths[1..][..i - 1];
    }
  }

  lemma {:induction false} SumPrefix(widths: seq<nat>, i: nat)
    requires i <= |widths|
    ensures Sum(widths[..i]) <= Sum(widths)
  {
    if i > 0 {
      SumPrefix(widths[1..], i - 1);
      assert widths[..i][1..] == widths[1..][..i - 1];
    }
  }

  /** Number `i` is read from the bytes behind the widths before it. */
  lemma {:induction false} UnpackAt(widths: seq<nat>, bs: seq<byte>, i: nat)
    requires |bs| >= Sum(widths) && i < |widths|
    ensures Sum(widths[..i]) + widths[i] <= |bs|
    ensures Unpack(widths, bs)[i] == Read(bs[Sum(widths[..i])..Sum(widths[..i]) + widths[i]])
  {
    hide Read;
    SumSnoc(widths, i);
    SumPrefix(widths, i + 1);
    if i > 0 {
      var w := widths[0];
      UnpackAt(widths[1..], bs[w..], i - 1);
      assert widths[..i][1..] == widths[1..][..i - 1];
      var n := Sum(widths[1..][..i - 1]);
      SliceBehind(bs, w, n, n + widths[i]);
    }
  }

  lemma SliceBehind(bs: seq<byte>, w: nat, a: nat, b: nat)
    requires w <= |bs| && a <= b <= |bs| - w
    ensures bs[w..][a..b] == bs[w + a..w + b]
  {
    var rest := bs[w..];
    forall i | 0 <= i < b - a ensures rest[a..b][i] == bs[w + a..w + b][i] {
      assert rest[a + i] == bs[w + (a + i)];
    }
  }

  /** The number in the `n` bytes from `at` on. */
  function NumberAt(packet: seq<byte>, at: nat, n: nat): nat {
    if at + n <= |packet| then Read(packet[at..at + n]) else 0
  }

  /** Number `i` of a packed record stands behind the widths before it. */
  lemma PackedAt(widths: seq<nat>, values: seq<nat>, rest: seq<byte>, i: nat)
    requires AllFit(widths, values) && i < |widths|
    ensures NumberAt(Pack(widths, values) + rest, Sum(widths[..i]), widths[i]) == values[i]
  {
    hide Pack, Unpack, Sum, Read, FitsIn;
    UnpackPacked(widths, values, rest);
    UnpackAt(widths, Pack(widths, values) + rest, i);
  }

  lemma SumOfNothing()
    ensures Sum([]) == 0
  {
  }

  lemma SumFrom(w: seq<nat>, i: nat)
    requires i < |w|
    ensures Sum(w[i..]) == w[i] + Sum(w[i + 1..])
  {
    assert w[i..][1..] == w[i + 1..];
  }

  /** The first byte counts most. */
  lemma ReadFirst(a: byte, b: byte)
    ensures Read([a]) == a as int && Read([a, b]) == 256 * a as int + b as int
  {
    assert [a, b][..1] == [a] && [a][..0] == [];
  }
}
