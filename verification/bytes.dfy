/** A byte as an array index, and the conversion (u8) i. */
module Bytes {

  function Index(x: bv8): nat { x as nat }

  function ToByte(i: nat): bv8
    requires i < 256
  {
    if i == 0 then 0 else ToByte(i - 1) + 1
  }

  lemma IndexBelow(x: bv8)
    ensures Index(x) < 256
  {
  }

  lemma IndexInjective(x: bv8, y: bv8)
    requires Index(x) == Index(y)
    ensures x == y
  {
    assert Index(x) as bv8 == x && Index(y) as bv8 == y;
  }

  lemma IndexNext(x: bv8)
    requires Index(x) < 255
    ensures Index(x + 1) == Index(x) + 1
  {
  }

  lemma {:induction false} IndexOfByte(i: nat)
    requires i < 256
    ensures Index(ToByte(i)) == i
  {
    if i > 0 {
      IndexOfByte(i - 1);
      IndexNext(ToByte(i - 1));
    }
    hide Index;
  }

  lemma ByteOfIndex(x: bv8)
    ensures Index(x) < 256 && ToByte(Index(x)) == x
  {
    IndexBelow(x);
    IndexOfByte(Index(x));
    IndexInjective(ToByte(Index(x)), x);
    hide Index, ToByte;
  }
}
