/** A packet that records its own serialized length: the recorded number is
    part of what is measured. */
module PacketSize {
  import opened Domain

  /** The length of a number in decimal. */
  function Digits(n: nat): (d: nat)
    ensures d >= 1
  {
    if n < 10 then 1 else 1 + Digits(n / 10)
  }

  /** The size computed by `k` passes over a packet of `base` other bytes. */
  function Pass(base: nat, k: nat): nat {
    if k == 0 then 0 else base + Digits(Pass(base, k - 1))
  }

  const MAX_SERIALIZED_CONTEXT_BYTES: nat := 16384

  /** The outcome of finalizing a packet; the size field has a ceiling. */
  datatype Finalized = Packet(recorded: nat, copied: bool) | AboveCeiling

  /** The serialized length of a packet with this size recorded. */
  function Serialized(base: nat, recorded: nat): nat { base + Digits(recorded) }

  lemma {:induction false} DigitsMonotone(m: nat, n: nat)
    requires m <= n
    ensures Digits(m) <= Digits(n)
  {
    if m >= 10 { DigitsMonotone(m / 10, n / 10); }
  }

  /** Adding less than nine times the number adds at most one digit. */
  lemma {:induction false} OneMoreDigit(n: nat, k: nat)
    requires k <= 9 * n
    ensures Digits(n + k) <= Digits(n) + 1
  {
    if n < 10 {
      DigitsMonotone(n + k, 99);
    } else {
      assert (n + k) / 10 <= n / 10 * 10 + 9;
      DigitsMonotone((n + k) / 10, n / 10 * 10 + 9);
      TimesTen(n / 10, 9);
    }
  }

  lemma TimesTen(n: nat, k: nat)
    requires n > 0 && k < 10
    ensures Digits(n * 10 + k) == Digits(n) + 1
  {
    assert (n * 10 + k) / 10 == n;
  }

  lemma {:induction false} FewDigits(n: nat)
    requires n > 0
    ensures Digits(n) <= n
  {
    if n >= 10 { FewDigits(n / 10); }
  }

  /** Just past a power of ten one more byte does not change the length. */
  lemma {:induction false} PastPower(n: nat, k: nat)
    requires n > 0 && k < Digits(n) && Digits(n + k) == Digits(n) + 1
    ensures Digits(n + k + 1) == Digits(n + k)
  {
    DigitsMonotone(n + k, n + k + 1);
    FewDigits(n);
    OneMoreDigit(n, k + 1);
  }

  /** Four passes reach the fixpoint from any base length. */
  lemma FourPassesSuffice(base: nat)
    ensures Pass(base, 4) == Pass(base, 3)
    ensures Serialized(base, Pass(base, 3)) == Pass(base, 3)
  {
    var s1 := base + 1;
    assert Pass(base, 1) == s1;
    var s2 := base + Digits(s1);
    assert Pass(base, 2) == s2;
    var s3 := base + Digits(s2);
    assert Pass(base, 3) == s3;
    var k := Digits(s1) - 1;
    FewDigits(s1);
    DigitsMonotone(s1, s2);
    OneMoreDigit(s1, k);
    if Digits(s2) != Digits(s1) { PastPower(s1, k); }
    assert Pass(base, 4) == base + Digits(s3);
  }

  /** Three passes are not always enough. */
  lemma ThreePassesFallShort()
    ensures Pass(98, 3) != Pass(98, 2) && Pass(98, 3) == 101
  {
    assert Pass(98, 1) == 99;
    assert Digits(100) == 3 by { assert Digits(10) == 2; }
    assert Pass(98, 2) == 100;
  }

  /** The passes climb to the least number that measures itself. */
  lemma {:induction false} LeastFixpoint(base: nat, s: nat, k: nat)
    requires Serialized(base, s) == s
    ensures Pass(base, k) <= Pass(base, k + 1) <= s
    ensures k >= 3 ==> Serialized(base, Pass(base, k)) == Pass(base, k)
  {
    if k > 0 {
      LeastFixpoint(base, s, k - 1);
      DigitsMonotone(Pass(base, k - 1), Pass(base, k));
      DigitsMonotone(Pass(base, k), s);
    } else {
      DigitsMonotone(0, s);
    }
    if k >= 3 { PassesRest(base, k); FourPassesSuffice(base); }
  }

  lemma {:induction false} PassesRest(base: nat, k: nat)
    requires k >= 3
    ensures Pass(base, k) == Pass(base, 3)
  {
    FourPassesSuffice(base);
    if k > 3 { PassesRest(base, k - 1); assert Pass(base, k) == base + Digits(Pass(base, k - 1)); }
  }

  /** The passes stay below the fixpoint they end in. */
  lemma BelowFixpoint(base: nat, k: nat)
    ensures Pass(base, k) <= Pass(base, 3)
  {
    FourPassesSuffice(base);
    LeastFixpoint(base, Pass(base, 3), k);
  }

  /** `_finalize_packet`: a packet below the ceiling records exactly its own
      length and is never copied; it fails exactly when the fixpoint is above. */
  method FinalizePacket(base: nat, ceiling: nat) returns (r: Finalized)
    ensures r == if Pass(base, 3) <= ceiling then Packet(Pass(base, 3), false) else AboveCeiling
    ensures r.Packet? ==> Serialized(base, r.recorded) == r.recorded <= ceiling
  {
    FourPassesSuffice(base);
    var size, recorded, i := 0, 0, 0;
    while i < 4
      invariant 0 <= i <= 4 && size == Pass(base, i)
      invariant i > 0 ==> recorded == Pass(base, i - 1) && recorded <= ceiling
    {
      BelowFixpoint(base, i);
      if size > ceiling { return AboveCeiling; }
      recorded := size;
      var updated := Serialized(base, recorded);
      if updated == size {
        SettledPass(base, i);
        break;
      }
      size := updated;
      i := i + 1;
    }
    if i == 4 {
      PassesRest(base, 4);
    } else {
      DigitsPositive(base, i);
    }
    return Packet(size, recorded != size);
  }

  lemma {:induction false} SettledPass(base: nat, k: nat)
    requires Serialized(base, Pass(base, k)) == Pass(base, k)
    ensures Pass(base, 3) == Pass(base, k)
  {
    BelowFixpoint(base, k);
    LeastFixpoint(base, Pass(base, k), 3);
  }

  lemma DigitsPositive(base: nat, k: nat)
    requires Serialized(base, Pass(base, k)) == Pass(base, k)
    ensures k > 0
  {
  }
}
