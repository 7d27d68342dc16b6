/** Numbers as bytes in memory, the least significant byte first. */
module LittleEndian {
  import opened LuaValues

  type Bytes = seq<Byte>

  function Pow256(w: nat): (r: nat)
    ensures r > 0
  {
    if w == 0 then 1 else 256 * Pow256(w - 1)
  }

  function LE(x: nat, w: nat): (b: Bytes)
    ensures |b| == w
  {
    if w == 0 then [] else [x % 256] + LE(x / 256, w - 1)
  }

  function FromLE(b: Bytes): nat {
    if b == [] then 0 else b[0] + 256 * FromLE(b[1..])
  }

  lemma {:induction false} FromLEofLE(x: nat, w: nat)
    requires x < Pow256(w)
    ensures FromLE(LE(x, w)) == x
    decreases w
  {
    if w > 0 {
      FromLEofLE(x / 256, w - 1);
      assert LE(x, w)[1..] == LE(x / 256, w - 1);
    }
  }

  lemma Pow256Values()
    ensures Pow256(4) == 0x1_0000_0000 && Pow256(8) == 0x1_0000_0000_0000_0000
  {
    assert Pow256(2) == 0x1_0000;
    assert Pow256(4) == 0x1_0000_0000;
    assert Pow256(6) == 0x1_0000_0000_0000;
  }

  /** The bytes determine the number. */
  lemma LEInjective(x: nat, y: nat, w: nat)
    requires x < Pow256(w) && y < Pow256(w) && LE(x, w) == LE(y, w)
    ensures x == y
  {
    FromLEofLE(x, w);
    FromLEofLE(y, w);
  }
}
