/** Big-endian integers, as `to_be_bytes` and `from_be_bytes` write and read them. */
module BigEndian {
  import opened Basics

  function Pow256(k: nat): (p: nat)
    ensures p > 0
  {
    if k == 0 then 1 else 256 * Pow256(k - 1)
  }

  /** The last `k` bytes of a number. */
  function ToBytes(n: nat, k: nat): (s: seq<byte>)
    ensures |s| == k
  {
    if k == 0 then [] else ToBytes(n / 256, k - 1) + [n % 256]
  }

  function FromBytes(s: seq<byte>): nat {
    if s == [] then 0 else FromBytes(s[..|s| - 1]) * 256 + s[|s| - 1]
  }

  lemma {:induction false} Bounded(s: seq<byte>)
    ensures FromBytes(s) < Pow256(|s|)
  {
    if s != [] {
      Bounded(s[..|s| - 1]);
    }
  }

  /** Reading undoes writing exactly for the numbers that fit. */
  lemma {:induction false} ReadWritten(n: nat, k: nat)
    ensures FromBytes(ToBytes(n, k)) == n <==> n < Pow256(k)
  {
    Bounded(ToBytes(n, k));
    if k > 0 {
      ReadWritten(n / 256, k - 1);
      var s := ToBytes(n, k);
      assert s[..k - 1] == ToBytes(n / 256, k - 1);
    }
  }

  lemma {:induction false} WriteRead(s: seq<byte>)
    ensures ToBytes(FromBytes(s), |s|) == s
  {
    if s != [] {
      WriteRead(s[..|s| - 1]);
      assert s == s[..|s| - 1] + [s[|s| - 1]];
    }
  }

  /** The first byte weighs most. */
  lemma {:induction false} FirstWeighsMost(s: seq<byte>)
    requires s != []
    ensures FromBytes(s) == s[0] * Pow256(|s| - 1) + FromBytes(s[1..])
  {
    if |s| == 1 {
      assert s[..0] == [] && s[1..] == [];
    } else {
      var init := s[..|s| - 1];
      assert init[1..] == s[1..][..|s| - 2];
      FirstWeighsMost(init);
      assert FromBytes(s) == (s[0] * Pow256(|s| - 2) + FromBytes(init[1..])) * 256 + s[|s| - 1];
      assert s[0] * (256 * Pow256(|s| - 2)) == s[0] * Pow256(|s| - 2) * 256;
    }
  }

  lemma Powers()
    ensures Pow256(1) == 0x100 && Pow256(2) == 0x1_0000 && Pow256(3) == 0x100_0000 && Pow256(4) == 0x1_0000_0000
    ensures Pow256(8) == 0x1_0000_0000_0000_0000
  {
    assert Pow256(1) == 256 && Pow256(2) == 256 * Pow256(1) && Pow256(3) == 256 * Pow256(2);
    assert Pow256(4) == 256 * Pow256(3) && Pow256(5) == 256 * Pow256(4) && Pow256(6) == 256 * Pow256(5);
    assert Pow256(7) == 256 * Pow256(6);
  }

  lemma ThreeBytes(s: seq<byte>)
    requires |s| == 3
    ensures FromBytes(s) == s[0] as int * 0x1_0000 + s[1] as int * 0x100 + s[2]
  {
    Powers();
    FirstWeighsMost(s);
    FirstWeighsMost(s[1..]);
    FirstWeighsMost(s[1..][1..]);
  }

  lemma FourBytes(s: seq<byte>)
    requires |s| == 4
    ensures FromBytes(s) == s[0] as int * 0x100_0000 + s[1] as int * 0x1_0000 + s[2] as int * 0x100 + s[3]
  {
    Powers();
    FirstWeighsMost(s);
    FirstWeighsMost(s[1..]);
    FirstWeighsMost(s[1..][1..]);
    FirstWeighsMost(s[1..][1..][1..]);
  }
}
