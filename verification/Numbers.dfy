/** Bytes as numbers, bits under a mask, and facts about products and remainders. */
module Numbers {
  type Byte = b: int | 0 <= b < 256

  lemma MulMonotone(a: int, b: int, n: int)
    requires a <= b && 0 <= n
    ensures a * n <= b * n && n * a <= n * b
    ensures 0 <= a ==> 0 <= n * a
  {
  }

  // ---- Masks

  /** Bitwise and. */
  function And(a: nat, mask: nat): (r: nat)
    decreases mask
  {
    if mask == 0 then 0 else 2 * And(a / 2, mask / 2) + if a % 2 == 1 && mask % 2 == 1 then 1 else 0
  }

  predicate IsPower(n: nat) {
    n == 1 || (n > 1 && n % 2 == 0 && IsPower(n / 2))
  }

  lemma AndEven(a: nat, mask: nat)
    ensures And(a, 2 * mask) == 2 * And(a / 2, mask)
  {
    if mask > 0 {
      assert (2 * mask) / 2 == mask && (2 * mask) % 2 == 0;
    }
  }

  lemma AndOdd(a: nat, mask: nat)
    ensures And(a, 2 * mask + 1) == 2 * And(a / 2, mask) + a % 2
  {
    assert (2 * mask + 1) / 2 == mask && (2 * mask + 1) % 2 == 1;
  }

  lemma QuotientIs(a: nat, n: nat, q: nat, r: nat)
    requires n > 0 && r < n && a == q * n + r
    ensures a / n == q && a % n == r
  {
    var k := a / n;
    assert a == k * n + a % n;
    if k > q {
      MulMonotone(q + 1, k, n);
      assert false;
    } else if k < q {
      MulMonotone(k + 1, q, n);
      assert false;
    }
  }

  lemma HalfFirst(a: nat, n: nat)
    requires n > 0
    ensures a % (2 * n) == 2 * (a / 2 % n) + a % 2 && a / (2 * n) == a / 2 / n
  {
    var q, r := a / 2 / n, a / 2 % n;
    assert a == 2 * (q * n + r) + a % 2;
    assert a == q * (2 * n) + (2 * r + a % 2);
    QuotientIs(a, 2 * n, q, 2 * r + a % 2);
  }

  /** The mask 2^k - 1 keeps the lowest k bits. */
  lemma {:induction false} LowBits(a: nat, n: nat)
    requires IsPower(n)
    ensures And(a, n - 1) == a % n
    decreases n
  {
    if n > 1 {
      var h := n / 2;
      LowBits(a / 2, h);
      assert n - 1 == 2 * (h - 1) + 1;
      AndOdd(a, h - 1);
      HalfFirst(a, h);
    }
  }

  function Shifted(mask: nat, places: nat): nat
    decreases places
  {
    if places == 0 then mask else 2 * Shifted(mask, places - 1)
  }

  function Halved(a: nat, places: nat): nat
    decreases places
  {
    if places == 0 then a else Halved(a / 2, places - 1)
  }

  /** A mask moved up looks at the bits that far up. */
  lemma {:induction false} AndShifted(a: nat, mask: nat, places: nat)
    ensures And(a, Shifted(mask, places)) == Shifted(And(Halved(a, places), mask), places)
    decreases places
  {
    if places > 0 {
      AndEven(a, Shifted(mask, places - 1));
      AndShifted(a / 2, mask, places - 1);
    }
  }

  /** The powers that occur. */
  lemma ByteUnits()
    ensures forall n | n == 1 || n == 2 || n == 4 || n == 8 || n == 16 || n == 32 || n == 64 || n == 128 :: IsPower(n)
  {
    assert IsPower(1);
    assert IsPower(2);
    assert IsPower(4);
    assert IsPower(8);
    assert IsPower(16);
    assert IsPower(32);
    assert IsPower(64);
    assert IsPower(128);
  }
}
