/** Coil addressing of the WAGO controllers: which configuration variables name the same coil. */
module Coils {
  import opened Basics

  type Var = bv32

  datatype Address = Address(raw: bv32)

  /** The address that a write to variable `v` is sent to, before the range check. */
  function Coil(v: Var): Address
  {
    Address(v | 0x1000)
  }

  /** The address fits the 16 bits of the protocol. */
  predicate Reachable(a: Address)
  {
    a.raw <= 0xFFFF
  }

  /** `u16::try_from(var | 0x1000)` */
  function CoilAddress(v: Var): Option<Address>
  {
    if Reachable(Coil(v)) then Some(Coil(v)) else None
  }

  /** `u16::try_from(var + 0x200)`, with the wrap-around of an unchecked `u32` addition. */
  function InputAddress(v: Var): Option<Address>
  {
    if v + 0x200 <= 0xFFFF then Some(Address(v + 0x200)) else None
  }

  /** Which coil a variable names: bit 12 is set, and the other 31 bits are those of the variable. */
  lemma CoilSetsBitTwelve(v: Var)
    ensures Coil(v).raw & 0x1000 == 0x1000
    ensures Coil(v).raw & 0xFFFF_EFFF == v & 0xFFFF_EFFF
  {
  }

  /** In numbers: the coils of the first 4096 variables lie 4096 higher. */
  lemma CoilIsHigher(v: Var)
    requires v < 0x1000
    ensures CoilAddress(v).Some? && CoilAddress(v).value.raw as int == v as int + 0x1000
  {
    assert v | 0x1000 == v + 0x1000 && v + 0x1000 <= 0xFFFF;
    SumInNumbers(v);
  }

  lemma SumInNumbers(v: Var)
    requires v < 0x1000
    ensures (v + 0x1000) as int == v as int + 0x1000
  {
  }

  /** The discrete input of a variable lies 512 higher than the variable when that fits in 16 bits. Beyond that there is none, but for
      the last 512 variables: they wrap around to the first inputs. */
  lemma InputPlace(v: Var)
    ensures InputAddress(v)
            == if v < 0xFE00 then Some(Address(v + 0x200))
               else if v < 0xFFFF_FE00 then None
               else Some(Address(v - 0xFFFF_FE00))
  {
    assert v >= 0xFFFF_FE00 ==> v + 0x200 == v - 0xFFFF_FE00 && v - 0xFFFF_FE00 < 0x200;
    assert v < 0xFE00 ==> v + 0x200 <= 0xFFFF;
    assert 0xFE00 <= v < 0xFFFF_FE00 ==> v + 0x200 > 0xFFFF;
  }

  /** A variable is writable exactly when it fits in 16 bits. */
  lemma AddressableIffSixteenBits(v: Var)
    ensures CoilAddress(v).Some? <==> v < 0x1_0000
  {
    assert (v | 0x1000) <= 0xFFFF <==> v < 0x1_0000;
  }

  /** Two variables name one coil exactly when they are equal or differ in bit 12 alone. */
  lemma AliasIffDifferInBitTwelve(v: Var, w: Var)
    ensures Coil(v) == Coil(w) <==> v ^ w == 0 || v ^ w == 0x1000
  {
    AgreeOffBitTwelve(v, w);
    OnlyBitTwelve(v ^ w);
  }

  lemma AgreeOffBitTwelve(v: bv32, w: bv32)
    ensures (v | 0x1000) == (w | 0x1000) <==> (v ^ w) & 0xFFFF_EFFF == 0
  {
  }

  lemma OnlyBitTwelve(x: bv32)
    ensures x & 0xFFFF_EFFF == 0 <==> x == 0 || x == 0x1000
  {
  }
}
