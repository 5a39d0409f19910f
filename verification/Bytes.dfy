/** Bytes, big-endian packing as done by Python's struct module, and concatenation
    of byte segments. Everything that travels over the wire is built from these. */
module Bytes {
  type byte = x: int | 0 <= x < 256

  datatype Option<+T> = None | Some(value: T)

  function Pow256(n: nat): (p: nat)
    ensures p >= 1
  {
    if n == 0 then 1 else 256 * Pow256(n - 1)
  }

  lemma Pow256Values()
    ensures Pow256(1) == 0x100
    ensures Pow256(2) == 0x1_0000
    ensures Pow256(4) == 0x1_0000_0000
    ensures Pow256(8) == 0x1_0000_0000_0000_0000
    ensures Pow256(12) == 0x1_0000_0000_0000_0000_0000_0000
  {
    assert Pow256(4) == 256 * Pow256(3);
    assert Pow256(6) == 256 * Pow256(5);
    assert Pow256(8) == 256 * Pow256(7);
    assert Pow256(10) == 256 * Pow256(9);
    assert Pow256(12) == 256 * Pow256(11);
  }

  /** struct.pack with a big-endian unsigned field of `width` bytes. */
  function Pack(width: nat, v: nat): (b: seq<byte>)
    requires v < Pow256(width)
    ensures |b| == width
  {
    if width == 0 then [] else Pack(width - 1, v / 256) + [v % 256]
  }

  /** struct.unpack of a big-endian unsigned field. */
  function Unpack(b: seq<byte>): (v: nat)
    ensures v < Pow256(|b|)
  {
    if b == [] then 0 else Unpack(b[..|b| - 1]) * 256 + b[|b| - 1]
  }

  lemma {:induction false} UnpackPack(width: nat, v: nat)
    requires v < Pow256(width)
    ensures Unpack(Pack(width, v)) == v
  {
    if width > 0 {
      UnpackPack(width - 1, v / 256);
      assert Pack(width, v)[..width - 1] == Pack(width - 1, v / 256);
    }
  }

  lemma {:induction false} PackUnpack(b: seq<byte>)
    ensures Pack(|b|, Unpack(b)) == b
  {
    if b != [] {
      PackUnpack(b[..|b| - 1]);
    }
  }

  lemma PackInjective(width: nat, v: nat, w: nat)
    requires v < Pow256(width) && w < Pow256(width)
    requires Pack(width, v) == Pack(width, w)
    ensures v == w
  {
    UnpackPack(width, v);
    UnpackPack(width, w);
  }

  /** The byte stream made of a list of segments. */
  function Flatten(segments: seq<seq<byte>>): seq<byte> {
    if segments == [] then [] else segments[0] + Flatten(segments[1..])
  }

  lemma {:induction false} FlattenAppend(a: seq<seq<byte>>, b: seq<seq<byte>>)
    ensures Flatten(a + b) == Flatten(a) + Flatten(b)
  {
    if a == [] {
      assert a + b == b;
    } else {
      assert (a + b)[1..] == a[1..] + b;
      FlattenAppend(a[1..], b);
    }
  }

  lemma FlattenSnoc(a: seq<seq<byte>>, s: seq<byte>)
    ensures Flatten(a + [s]) == Flatten(a) + s
  {
    FlattenAppend(a, [s]);
    assert Flatten([s]) == s + Flatten([]);
  }

  predicate IsAscii(s: string) {
    forall i :: 0 <= i < |s| ==> s[i] as int < 128
  }

  /** Text as bytes; exact for ASCII, which is all it is used for. */
  function Ascii(s: string): (b: seq<byte>)
    ensures |b| == |s| && forall i :: 0 <= i < |s| ==> b[i] as int == s[i] as int % 256
  {
    seq(|s|, i requires 0 <= i < |s| => (s[i] as int % 256) as byte)
  }

  lemma AsciiInjective(s: string, t: string)
    requires IsAscii(s) && IsAscii(t) && Ascii(s) == Ascii(t)
    ensures s == t
  {
    forall i | 0 <= i < |s| ensures s[i] == t[i] {
      assert Ascii(s)[i] == Ascii(t)[i];
    }
  }
}
