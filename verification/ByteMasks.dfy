/** The masks that drivers apply to bytes, as quotients and remainders. */
module ByteMasks {
  import opened Numbers

  lemma FieldMask(b: Byte, n: nat, places: nat)
    requires IsPower(n)
    ensures And(b, Shifted(n - 1, places)) == Shifted(Halved(b, places) % n, places)
  {
    AndShifted(b, n - 1, places);
    LowBits(Halved(b, places), n);
  }

  /** The masks that the decoders use. */
  lemma Masks(b: Byte)
    ensures And(b, 0x01) == b % 2 && And(b, 0x03) == b % 4 && And(b, 0x07) == b % 8 && And(b, 0x0F) == b % 16
    ensures And(b, 0x1F) == b % 32 && And(b, 0x3F) == b % 64 && And(b, 0x7F) == b % 128
  {
    ByteUnits();
    hide And, IsPower;
    LowBits(b, 2);
    LowBits(b, 4);
    LowBits(b, 8);
    LowBits(b, 16);
    LowBits(b, 32);
    LowBits(b, 64);
    LowBits(b, 128);
  }

  lemma Halves(b: Byte)
    ensures Halved(b, 1) == b / 2 && Halved(b, 2) == b / 4 && Halved(b, 4) == b / 16
    ensures Halved(b, 5) == b / 32 && Halved(b, 6) == b / 64
  {
    assert Halved(b, 4) == Halved(b / 4, 2);
    assert Halved(b, 5) == Halved(b / 16, 1);
    assert Halved(b, 6) == Halved(b / 16, 2);
  }

  lemma Shifts(m: nat)
    ensures Shifted(m, 1) == 2 * m && Shifted(m, 2) == 4 * m && Shifted(m, 4) == 16 * m
    ensures Shifted(m, 5) == 32 * m && Shifted(m, 6) == 64 * m
  {
  }

  /** A field of bits, by its mask. */
  lemma MaskAt(b: Byte, n: nat, places: nat, unit: nat)
    requires (places == 1 && unit == 2) || (places == 2 && unit == 4) || (places == 4 && unit == 16)
             || (places == 5 && unit == 32) || (places == 6 && unit == 64)
    requires n > 0 && IsPower(n)
    ensures And(b, unit * (n - 1)) == unit * (b / unit % n)
  {
    hide And, Halved, Shifted, IsPower;
    FieldMask(b, n, places);
    Halves(b);
    Shifts(n - 1);
    Shifts(b / unit % n);
  }

  lemma HighMasks(b: Byte)
    ensures And(b, 0x06) == 2 * (b / 2 % 4) && And(b, 0x7E) == 2 * (b / 2 % 64) && And(b, 0x0C) == 4 * (b / 4 % 4)
    ensures And(b, 0x30) == 16 * (b / 16 % 4) && And(b, 0x70) == 16 * (b / 16 % 8) && And(b, 0xF0) == 16 * (b / 16 % 16)
    ensures And(b, 0x60) == 32 * (b / 32 % 4)
  {
    ByteUnits();
    hide And, IsPower;
    MaskAt(b, 4, 1, 2);
    MaskAt(b, 64, 1, 2);
    MaskAt(b, 4, 2, 4);
    MaskAt(b, 4, 4, 16);
    MaskAt(b, 8, 4, 16);
    MaskAt(b, 16, 4, 16);
    MaskAt(b, 4, 5, 32);
  }

  lemma BitMasks(b: Byte)
    ensures And(b, 0x02) == 2 * (b / 2 % 2) && And(b, 0x04) == 4 * (b / 4 % 2) && And(b, 0x10) == 16 * (b / 16 % 2)
    ensures And(b, 0x20) == 32 * (b / 32 % 2) && And(b, 0x40) == 64 * (b / 64 % 2)
  {
    ByteUnits();
    hide And, IsPower;
    MaskAt(b, 2, 1, 2);
    MaskAt(b, 2, 2, 4);
    MaskAt(b, 2, 4, 16);
    MaskAt(b, 2, 5, 32);
    MaskAt(b, 2, 6, 64);
  }

  lemma Mask7F(b: Byte)
    ensures And(b, 0x7F) == b % 128
  {
    hide And;
    Masks(b);
  }

  lemma Mask0F(b: Byte)
    ensures And(b, 0x0F) == b % 16
  {
    hide And;
    Masks(b);
  }

  lemma Mask30(b: Byte)
    ensures And(b, 0x30) == 16 * (b / 16 % 4)
  {
    hide And;
    HighMasks(b);
  }

  lemma Eighth(a: nat)
    ensures a / 2 / 2 / 2 == a / 8
  {
    HalfFirst(a, 4);
    HalfFirst(a / 2, 2);
  }

  /** The mask of the three mark bits, in terms of the byte halved again and again. */
  lemma MarkHalves(d: nat, h1: nat, h2: nat, h3: nat, h4: nat, h5: nat, h6: nat)
    requires h1 == d / 2 && h2 == h1 / 2 && h3 == h2 / 2 && h4 == h3 / 2 && h5 == h4 / 2 && h6 == h5 / 2
    ensures And(d, 0xC8) == 64 * (h6 % 4) + 8 * (h3 % 2)
  {
    hide And;
    AndEven(d, 0x64);
    AndEven(h1, 0x32);
    AndEven(h2, 0x19);
    AndOdd(h3, 0x0C);
    AndEven(h4, 0x06);
    AndEven(h5, 0x03);
    ByteUnits();
    LowBits(h6, 4);
  }

  lemma MarkBits(d: Byte)
    ensures And(d, 0xC8) == 128 * (d / 128 % 2) + 64 * (d / 64 % 2) + 8 * (d / 8 % 2)
  {
    hide And;
    var h1 := d / 2;
    var h2 := h1 / 2;
    var h3 := h2 / 2;
    var h4 := h3 / 2;
    var h5 := h4 / 2;
    MarkHalves(d, h1, h2, h3, h4, h5, h5 / 2);
    Eighth(d);
    Eighth(h3);
    TopBits(d, h3, h5 / 2);
  }

  lemma TopBits(d: nat, h3: nat, h6: nat)
    requires h3 == d / 8 && h6 == h3 / 8
    ensures h6 == d / 64 && h6 % 4 == 2 * (d / 128 % 2) + d / 64 % 2
  {
    assert d / 64 == d / 8 / 8;
    HalfFirst(d / 64, 2);
    assert d / 128 == d / 64 / 2;
  }
}
