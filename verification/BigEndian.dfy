/** Big-endian integers of any width, and the 64-bit macros of the request/reply demo. */
module BigEndian {
  import opened Bytes

  function Pow256(k: nat): (r: nat)
    ensures r >= 1
  {
    if k == 0 then 1 else 256 * Pow256(k - 1)
  }

  /** The low `k` bytes of `u`, most significant first. */
  function Encode(k: nat, u: nat): (r: Bytes)
    ensures |r| == k
  {
    if k == 0 then [] else Encode(k - 1, u / 256) + [u % 256]
  }

  function Decode(s: Bytes): (u: nat)
    ensures u < Pow256(|s|)
  {
    if s == [] then 0 else 256 * Decode(s[..|s| - 1]) + s[|s| - 1]
  }

  lemma {:induction false} DecodeEncode(k: nat, u: nat)
    requires u < Pow256(k)
    ensures Decode(Encode(k, u)) == u
  {
    if k > 0 {
      DecodeEncode(k - 1, u / 256);
      assert Encode(k, u)[..k - 1] == Encode(k - 1, u / 256);
    }
  }

  lemma {:induction false} EncodeDecode(s: Bytes)
    ensures Encode(|s|, Decode(s)) == s
  {
    if s != [] {
      var p := s[..|s| - 1];
      EncodeDecode(p);
      assert Decode(s) / 256 == Decode(p) && Decode(s) % 256 == s[|s| - 1];
      assert s == p + [s[|s| - 1]];
    }
  }

  const TWO_64: int := 0x1_0000_0000_0000_0000

  /** Each byte of `PUT64` is a shift of the value cut to eight bits. */
  method Put64(p: array<Byte>, u: nat)
    requires p.Length >= 8 && u < TWO_64
    modifies p
    ensures p[..8] == Encode(8, u)
    ensures p[8..] == old(p[8..])
  {
    p[0] := u / 0x100_0000_0000_0000 % 256;
    p[1] := u / 0x1_0000_0000_0000 % 256;
    p[2] := u / 0x100_0000_0000 % 256;
    p[3] := u / 0x1_0000_0000 % 256;
    p[4] := u / 0x100_0000 % 256;
    p[5] := u / 0x1_0000 % 256;
    p[6] := u / 0x100 % 256;
    p[7] := u % 256;
    ShiftsAreEncode(u, p[..8]);
  }

  lemma ShiftsAreEncode(u: nat, s: Bytes)
    requires |s| == 8
    requires s[0] == u / 0x100_0000_0000_0000 % 256 && s[1] == u / 0x1_0000_0000_0000 % 256
    requires s[2] == u / 0x100_0000_0000 % 256 && s[3] == u / 0x1_0000_0000 % 256
    requires s[4] == u / 0x100_0000 % 256 && s[5] == u / 0x1_0000 % 256
    requires s[6] == u / 0x100 % 256 && s[7] == u % 256
    ensures s == Encode(8, u)
  {
    var u1 := u / 256;
    var u2 := u1 / 256;
    var u3 := u2 / 256;
    var u4 := u3 / 256;
    var u5 := u4 / 256;
    var u6 := u5 / 256;
    var u7 := u6 / 256;
    assert u2 == u / 0x1_0000 && u3 == u / 0x100_0000 && u4 == u / 0x1_0000_0000;
    assert u5 == u / 0x100_0000_0000 && u6 == u / 0x1_0000_0000_0000 && u7 == u / 0x100_0000_0000_0000;
    assert Encode(0, u7 / 256) == [];
    assert Encode(1, u7) == [u7 % 256];
    assert Encode(2, u6) == [u7 % 256, u6 % 256];
    assert Encode(3, u5) == [u7 % 256, u6 % 256, u5 % 256];
    assert Encode(4, u4) == [u7 % 256, u6 % 256, u5 % 256, u4 % 256];
    assert Encode(5, u3) == [u7 % 256, u6 % 256, u5 % 256, u4 % 256, u3 % 256];
    assert Encode(6, u2) == [u7 % 256, u6 % 256, u5 % 256, u4 % 256, u3 % 256, u2 % 256];
    assert Encode(7, u1) == [u7 % 256, u6 % 256, u5 % 256, u4 % 256, u3 % 256, u2 % 256, u1 % 256];
    assert Encode(8, u) == [u7 % 256, u6 % 256, u5 % 256, u4 % 256, u3 % 256, u2 % 256, u1 % 256, u % 256];
  }

  /** `GET64`: the shifted bytes of the array added up. */
  method Get64(p: array<Byte>) returns (u: nat)
    requires p.Length >= 8
    ensures u == Decode(p[..8]) && u < TWO_64
  {
    u := (p[0] as int) * 0x100_0000_0000_0000 + (p[1] as int) * 0x1_0000_0000_0000 +
         (p[2] as int) * 0x100_0000_0000 + (p[3] as int) * 0x1_0000_0000 +
         (p[4] as int) * 0x100_0000 + (p[5] as int) * 0x1_0000 + (p[6] as int) * 0x100 + p[7];
    SumIsDecode(p[..8]);
  }

  lemma SumIsDecode(s: Bytes)
    requires |s| == 8
    ensures Decode(s) == (s[0] as int) * 0x100_0000_0000_0000 + (s[1] as int) * 0x1_0000_0000_0000 +
                         (s[2] as int) * 0x100_0000_0000 + (s[3] as int) * 0x1_0000_0000 +
                         (s[4] as int) * 0x100_0000 + (s[5] as int) * 0x1_0000 + (s[6] as int) * 0x100 + s[7]
  {
    forall k | 0 < k <= 8 ensures Decode(s[..k]) == 256 * Decode(s[..k - 1]) + s[k - 1] {
      assert s[..k][..k - 1] == s[..k - 1];
    }
    assert s[..8] == s && s[..0] == [];
    assert Decode(s[..0]) == 0;
    var d1, d2, d3, d4 := Decode(s[..1]), Decode(s[..2]), Decode(s[..3]), Decode(s[..4]);
    var d5, d6, d7, d8 := Decode(s[..5]), Decode(s[..6]), Decode(s[..7]), Decode(s[..8]);
    assert d1 == s[0] && d2 == 256 * d1 + s[1] && d3 == 256 * d2 + s[2] && d4 == 256 * d3 + s[3];
    assert d5 == 256 * d4 + s[4] && d6 == 256 * d5 + s[5] && d7 == 256 * d6 + s[6] && d8 == 256 * d7 + s[7];
  }
}
