/** Synaptics packets said of the bytes: what contacts carry and how many fingers are counted, as masks. */
module SynapticsFields {
  import opened Numbers
  import opened ByteMasks
  import opened SynapticsPad

  // ---- The kind of a packet

  /** The width field, spread over three places. */
  function W(b: Packet): nat {
    And(b[0], 0x30) / 4 + And(b[0], 0x04) / 2 + And(b[3], 0x04) / 4
  }

  lemma WidthField(b: Packet)
    ensures WidthOf(b) == W(b)
  {
    hide And;
    Mask30(b[0]);
    Mask04(b[0]);
    Mask04(b[3]);
    Quarters(b[0] / 16 % 4);
  }

  lemma Mask04(b: Byte)
    ensures And(b, 0x04) == 4 * (b / 4 % 2)
  {
    hide And;
    BitMasks(b);
  }

  lemma Quarters(a: nat)
    ensures 16 * a / 4 == 4 * a
  {
  }

  // ---- Coordinates

  /** Thirteen bits, of which the upper end stands for negative numbers. */
  predicate IsSigned(c: int, raw: nat) {
    (raw > 8176 && c == raw - 8192) || (raw == 8176 && c == 6143) || (raw < 8176 && c == raw)
  }

  /** The contact of a normal packet. */
  predicate HasPlace(b: Packet, f: Finger) {
    && IsSigned(f.x, b[4] + 256 * And(b[1], 0x0F) + 256 * And(b[3], 0x10))
    && IsSigned(f.y, b[5] + 16 * And(b[1], 0xF0) + 128 * And(b[3], 0x20))
    && f.z == (if W(b) >= 4 then b[2] else And(b[2], 0xFE))
  }

  predicate IsRealFinger(b: Packet, f: Finger) {
    && HasPlace(b, f)
    && f.w == (if W(b) >= 4 then W(b) else 8 + 4 * And(b[2], 0x01) + And(b[5], 0x02) + And(b[4], 0x01))
  }

  lemma MaskFE(b: Byte)
    ensures And(b, 0xFE) == b - b % 2
  {
    hide And, IsPower;
    AndEven(b, 0x7F);
    ByteUnits();
    LowBits(b / 2, 128);
  }

  lemma Mask01(b: Byte)
    ensures And(b, 0x01) == b % 2
  {
    hide And;
    Masks(b);
  }

  lemma RawX(b: Packet)
    ensures b[4] + 256 * (b[1] % 16) + 4096 * Bit(b[3], 16) == b[4] + 256 * And(b[1], 0x0F) + 256 * And(b[3], 0x10)
  {
    hide And;
    Mask0F(b[1]);
    BitMasks(b[3]);
  }

  lemma RawY(b: Packet)
    ensures b[5] + 256 * (b[1] / 16) + 4096 * Bit(b[3], 32) == b[5] + 16 * And(b[1], 0xF0) + 128 * And(b[3], 0x20)
  {
    hide And;
    HighMasks(b[1]);
    BitMasks(b[3]);
  }

  lemma RealFingerFields(b: Packet, vf: int)
    ensures IsRealFinger(b, RealFinger(b, vf)) && RealFinger(b, vf).vf == vf
  {
    hide And, WidthOf, W;
    WidthField(b);
    RawX(b);
    RawY(b);
    MaskFE(b[2]);
    Mask01(b[2]);
    Mask01(b[4]);
    BitMasks(b[5]);
  }

  /** The second contact, which comes at half the resolution. */
  predicate IsSecondFinger(b: Packet, f: Finger) {
    && IsSigned(f.x, 2 * (256 * And(b[4], 0x0F) + b[1]))
    && IsSigned(f.y, 2 * (16 * And(b[4], 0xF0) + b[2]))
    && f.z == 2 * (And(b[3], 0x30) + And(b[5], 0x0F))
    && f.w == 8 + 4 * And(b[5], 0x01) + 2 * And(b[2], 0x01) + And(b[1], 0x01)
  }

  lemma SecondFingerFields(b: Packet, vf: int)
    ensures IsSecondFinger(b, SecondFinger(b, vf)) && SecondFinger(b, vf).vf == vf
  {
    hide And;
    SecondXY(b, vf);
    Mask30(b[3]);
    Mask0F(b[5]);
    Mask01(b[1]);
    Mask01(b[2]);
    Mask01(b[5]);
  }

  lemma SecondXY(b: Packet, vf: int)
    ensures var f := SecondFinger(b, vf);
            IsSigned(f.x, 2 * (256 * And(b[4], 0x0F) + b[1])) && IsSigned(f.y, 2 * (16 * And(b[4], 0xF0) + b[2]))
  {
    hide And;
    Mask0F(b[4]);
    HighMasks(b[4]);
  }

  // ---- Counts

  /** The number of fingers: none below the threshold of pressure, one for a width of four or more; otherwise as many as were
      announced, but two at least with width 0 and three with width 1, and five at most. */
  predicate IsCount(announced: int, b: Packet, threshold: int, n: int) {
    var z := if W(b) >= 4 then b[2] else And(b[2], 0xFE);
    if z < threshold then n == 0
    else if W(b) >= 4 then n == 1
    else if W(b) == 0 then 2 <= n <= 5 && (n == announced || (n == 2 && announced < 2) || (n == 5 && announced > 5))
    else if W(b) == 1 then 3 <= n <= 5 && (n == announced || (n == 3 && announced < 3) || (n == 5 && announced > 5))
    else n == 0
  }

  lemma CountField(p: Pad, b: Packet, env: Env)
    ensures IsCount(p.agm, b, env.zFinger, FingerCount(p, b, env))
  {
    hide And, WidthOf, W;
    WidthField(b);
    MaskFE(b[2]);
  }

  /** What a normal packet brings in, and what it forgets of the announced count. */
  lemma NormalFields(p: Pad, b: Packet, env: Env)
    ensures var t := TakeNormal(p, b, env);
            && HasPlace(b, t.f[0])
            && (t.f[0].z < env.zFinger ==> t.f[0].w == 0 && t.agm == 0)
            && (t.f[0].z >= env.zFinger ==> IsRealFinger(b, t.f[0]) && t.agm == if W(b) >= 4 then 0 else p.agm)
            && t.f[0].vf == p.f[0].vf && t == p.(f := p.f[0 := t.f[0]], clamped := t.clamped, agm := t.agm)
            && IsCount(p.agm, b, env.zFinger, t.clamped)
  {
    hide And, RealFinger, IsCount, IsSigned, W, WidthOf;
    WidthField(b);
    RealFingerFields(b, p.f[0].vf);
    SameLook(b, p.f[0].vf);
    CountField(p, b, env);
  }

  /** The contact does not depend on its virtual finger. */
  lemma SameLook(b: Packet, vf: int)
    ensures RealFinger(b, -1).z == RealFinger(b, vf).z
  {
  }

  /** What an extended packet brings in. */
  lemma ExtendedFields(p: Pad, b: Packet)
    ensures var t := TakeAgm(p, b);
            && (And(b[5], 0x30) == 0x10 ==> IsSecondFinger(b, t.f[1]) && t == p.(f := p.f[1 := t.f[1]]) && t.f[1].vf == p.f[1].vf)
            && (And(b[5], 0x30) == 0x20 ==> t == p.(agm := And(b[1], 0x0F)))
            && (And(b[5], 0x30) != 0x10 && And(b[5], 0x30) != 0x20 ==> t == p)
  {
    hide And, IsSecondFinger;
    SecondFingerFields(b, p.f[1].vf);
    Mask30(b[5]);
    Mask0F(b[1]);
  }

  /** Which packets are normal. */
  lemma NormalKinds(b: Packet)
    ensures IsNormal(b) <==> W(b) != 2 && W(b) != 3
  {
    hide And, W, WidthOf;
    WidthField(b);
  }
}
