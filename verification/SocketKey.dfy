/** The name of a workspace's viewer socket: a 64-bit FNV-1a hash of the root path,
    printed as sixteen hexadecimal digits. */
module SocketKey {
  import opened Prelude
  import Numerals

  const OFFSET_BASIS: nat := 0xcbf2_9ce4_8422_2325
  const PRIME: nat := 0x0000_0100_0000_01b3

  /** The inverse of the prime modulo 2^64: their product is 1 + CARRY * 2^64. */
  const INVERSE: nat := 0xce96_5057_aff6_957b
  const CARRY: nat := (PRIME * INVERSE - 1) / U64_RANGE

  // ---- Machine arithmetic --------------------------------------------------

  /** Bitwise exclusive or. */
  function Xor(a: nat, b: nat): nat
    decreases a + b
  {
    if a == 0 && b == 0 then 0
    else 2 * Xor(a / 2, b / 2) + (if a % 2 == b % 2 then 0 else 1)
  }

  function Pow2(k: nat): nat { if k == 0 then 1 else 2 * Pow2(k - 1) }

  lemma {:induction false} Pow2Sum(a: nat, b: nat)
    ensures Pow2(a + b) == Pow2(a) * Pow2(b)
  {
    if a > 0 {
      Pow2Sum(a - 1, b);
      assert Pow2(a + b) == 2 * Pow2(a - 1 + b);
      assert 2 * (Pow2(a - 1) * Pow2(b)) == (2 * Pow2(a - 1)) * Pow2(b);
    }
  }

  lemma Pow2Of64()
    ensures Pow2(64) == U64_RANGE
  {
    assert Pow2(4) == 16 by { assert Pow2(2) == 4; }
    Pow2Sum(4, 4);
    Pow2Sum(8, 8);
    Pow2Sum(16, 16);
    Pow2Sum(32, 32);
  }

  lemma {:induction false} XorFits(a: nat, b: nat, k: nat)
    requires a < Pow2(k) && b < Pow2(k)
    ensures Xor(a, b) < Pow2(k)
    decreases k
  {
    if k > 0 {
      XorFits(a / 2, b / 2, k - 1);
    }
  }

  lemma {:induction false} XorUndoes(a: nat, b: nat)
    ensures Xor(Xor(a, b), b) == a
    decreases a + b
  {
    if a != 0 || b != 0 {
      XorUndoes(a / 2, b / 2);
      var x := Xor(a, b);
      assert x / 2 == Xor(a / 2, b / 2) && x % 2 == if a % 2 == b % 2 then 0 else 1;
    }
  }

  function XorByte(hash: u64, b: byte): u64 {
    Pow2Of64();
    XorFits(hash, b, 64);
    Xor(hash, b)
  }

  function WrappingMul(a: u64, b: nat): u64 { (a * b) % U64_RANGE }

  lemma ModShift(x: u64, m: int)
    ensures (x + m * U64_RANGE) % U64_RANGE == x
  {
  }

  lemma MulUndoes(x: u64)
    ensures WrappingMul(WrappingMul(x, PRIME), INVERSE) == x
    ensures WrappingMul(WrappingMul(x, INVERSE), PRIME) == x
  {
    var q, r := x * PRIME / U64_RANGE, WrappingMul(x, PRIME);
    assert r * INVERSE == x + (x * CARRY - q * INVERSE) * U64_RANGE;
    ModShift(x, x * CARRY - q * INVERSE);
    var p, s := x * INVERSE / U64_RANGE, WrappingMul(x, INVERSE);
    assert s * PRIME == x + (x * CARRY - p * PRIME) * U64_RANGE;
    ModShift(x, x * CARRY - p * PRIME);
  }

  // ---- The hash ------------------------------------------------------------

  /** Absorb one byte: exclusive or into the low bits, then a wrapping multiplication. */
  function Absorb(hash: u64, b: byte): u64 { WrappingMul(XorByte(hash, b), PRIME) }

  /** Undo the absorption of one byte. */
  function Release(hash: u64, b: byte): u64 { XorByte(WrappingMul(hash, INVERSE), b) }

  /** Absorbing any byte is a bijection on 64-bit words. */
  lemma AbsorbIsBijective(hash: u64, b: byte)
    ensures Release(Absorb(hash, b), b) == hash
    ensures Absorb(Release(hash, b), b) == hash
  {
    MulUndoes(XorByte(hash, b));
    XorUndoes(hash, b);
    MulUndoes(hash);
    XorUndoes(WrappingMul(hash, INVERSE), b);
  }

  /** Different bytes absorbed by the same state lead to different states. */
  lemma AbsorbSeparatesBytes(hash: u64, b: byte, c: byte)
    ensures Absorb(hash, b) == Absorb(hash, c) <==> b == c
  {
    MulUndoes(XorByte(hash, b));
    MulUndoes(XorByte(hash, c));
    XorUndoesLeft(hash, b);
    XorUndoesLeft(hash, c);
  }

  lemma {:induction false} XorUndoesLeft(a: nat, b: nat)
    ensures Xor(Xor(a, b), a) == b
    decreases a + b
  {
    if a != 0 || b != 0 {
      XorUndoesLeft(a / 2, b / 2);
      var x := Xor(a, b);
      assert x / 2 == Xor(a / 2, b / 2) && x % 2 == if a % 2 == b % 2 then 0 else 1;
    }
  }

  function HashFrom(hash: u64, s: bytes): u64
    decreases |s|
  {
    if s == [] then hash else HashFrom(Absorb(hash, s[0]), s[1..])
  }

  function Hash(s: bytes): u64 { HashFrom(OFFSET_BASIS, s) }

  /** The hashing loop. */
  method Fnv1a64(s: bytes) returns (hash: u64)
    ensures hash == Hash(s)
  {
    hash := OFFSET_BASIS;
    for i := 0 to |s|
      invariant HashFrom(hash, s[i..]) == Hash(s)
    {
      hash := XorByte(hash, s[i]);
      hash := WrappingMul(hash, PRIME);
      assert s[i..][1..] == s[i + 1..];
    }
  }

  lemma {:induction false} HashFromAppend(hash: u64, s: bytes, t: bytes)
    ensures HashFrom(hash, s + t) == HashFrom(HashFrom(hash, s), t)
    decreases |s|
  {
    if s == [] {
      assert s + t == t;
    } else {
      assert (s + t)[1..] == s[1..] + t;
      HashFromAppend(Absorb(hash, s[0]), s[1..], t);
    }
  }

  lemma {:induction false} HashFromInjective(g: u64, h: u64, s: bytes)
    ensures HashFrom(g, s) == HashFrom(h, s) <==> g == h
    decreases |s|
  {
    if s != [] {
      HashFromInjective(Absorb(g, s[0]), Absorb(h, s[0]), s[1..]);
      AbsorbIsBijective(g, s[0]);
      AbsorbIsBijective(h, s[0]);
    }
  }

  /** A common suffix neither creates nor removes a collision. */
  lemma CommonSuffix(a: bytes, b: bytes, s: bytes)
    ensures Hash(a + s) == Hash(b + s) <==> Hash(a) == Hash(b)
  {
    HashFromAppend(OFFSET_BASIS, a, s);
    HashFromAppend(OFFSET_BASIS, b, s);
    HashFromInjective(Hash(a), Hash(b), s);
  }

  /** Two roots that differ in one byte only never collide. */
  lemma OneByteApart(prefix: bytes, b: byte, c: byte, suffix: bytes)
    ensures Hash(prefix + [b] + suffix) == Hash(prefix + [c] + suffix) <==> b == c
  {
    CommonSuffix(prefix + [b], prefix + [c], suffix);
    HashFromAppend(OFFSET_BASIS, prefix, [b]);
    HashFromAppend(OFFSET_BASIS, prefix, [c]);
    AbsorbSeparatesBytes(Hash(prefix), b, c);
    assert HashFrom(Absorb(Hash(prefix), b), []) == Absorb(Hash(prefix), b);
    assert HashFrom(Absorb(Hash(prefix), c), []) == Absorb(Hash(prefix), c);
  }

  // ---- The file name -------------------------------------------------------

  function SocketName(root: bytes): string {
    Numerals.Text(Numerals.Padded(Hash(root), 16, 16)) + ".sock"
  }

  /** Two roots share a socket exactly when their hashes are equal. */
  lemma NamesAddNoCollisions(a: bytes, b: bytes)
    ensures SocketName(a) == SocketName(b) <==> Hash(a) == Hash(b)
  {
    hide Hash, Numerals.Padded, Numerals.Value;
    if SocketName(a) == SocketName(b) {
      var da, db := Numerals.Padded(Hash(a), 16, 16), Numerals.Padded(Hash(b), 16, 16);
      assert SocketName(a)[..|SocketName(a)| - 5] == Numerals.Text(da);
      assert SocketName(b)[..|SocketName(b)| - 5] == Numerals.Text(db);
      Numerals.TextInjective(da, db);
      Numerals.ValueOfPadded(Hash(a), 16, 16);
      Numerals.ValueOfPadded(Hash(b), 16, 16);
    }
  }

  // ---- Exactly this hash and this name ----------------------------------------

  /** The `k`-th bit of a number. */
  function Bit(n: nat, k: nat): nat { if k == 0 then n % 2 else Bit(n / 2, k - 1) }

  /** Exclusive or, bit by bit. */
  lemma {:induction false} XorIsBitwise(a: nat, b: nat, k: nat)
    ensures Bit(Xor(a, b), k) == if Bit(a, k) == Bit(b, k) then 0 else 1
    decreases k
  {
    var x := Xor(a, b);
    assert x % 2 == (if a % 2 == b % 2 then 0 else 1) && x / 2 == Xor(a / 2, b / 2);
    if k > 0 {
      XorIsBitwise(a / 2, b / 2, k - 1);
    }
  }

  lemma {:induction false} XorZero(a: nat)
    ensures Xor(a, 0) == a
  {
    if a > 0 {
      XorZero(a / 2);
    }
  }

  /** Exclusive or with a number below a power of two touches the bits below it only. */
  lemma {:induction false} XorLow(q: nat, r: nat, b: nat, k: nat)
    requires r < Pow2(k) && b < Pow2(k)
    ensures Xor(q * Pow2(k) + r, b) == q * Pow2(k) + Xor(r, b)
    decreases k
  {
    if k == 0 {
      XorZero(q);
    } else {
      var half := q * Pow2(k - 1);
      assert q * Pow2(k) == 2 * half;
      XorLow(q, r / 2, b / 2, k - 1);
      assert (2 * half + r) / 2 == half + r / 2 && (2 * half + r) % 2 == r % 2;
    }
  }

  /** One step computed: the low byte after the exclusive or, then the product's quotient
      and remainder by 2^64. */
  lemma AbsorbValue(hash: u64, b: byte, low: nat, q: nat, next: u64)
    requires Xor(hash % 256, b) == low
    requires (hash - hash % 256 + low) * 0x100_0000_01b3 == q * 0x1_0000_0000_0000_0000 + next
    ensures Absorb(hash, b) == next
  {
    assert Pow2(8) == 256 by {
      assert Pow2(4) == 16;
      Pow2Sum(4, 4);
    }
    XorLow(hash / 256, hash % 256, b, 8);
    assert hash == hash / 256 * 256 + hash % 256;
    assert XorByte(hash, b) == hash - hash % 256 + low;
    ModShift(next, q);
  }

  /** Absorbing one byte more. */
  lemma HashSnoc(s: bytes, b: byte)
    ensures Hash(s + [b]) == Absorb(Hash(s), b)
  {
    HashFromAppend(OFFSET_BASIS, s, [b]);
    assert HashFrom(Absorb(Hash(s), b), []) == Absorb(Hash(s), b);
    assert [b][1..] == [];
  }

  lemma LowByte()
    ensures Xor(0x25, 0x61) == 0x44
  {
    assert Xor(0x0, 0x1) == 0x1;
    assert Xor(0x2, 0x6) == 0x4;
    assert Xor(0x9, 0x18) == 0x11;
  }

  /** The published FNV-1a values of the empty text and of "a". */
  lemma KnownHashes()
    ensures Hash([]) == 0xcbf2_9ce4_8422_2325
    ensures Hash([0x61]) == 0xaf63_dc4c_8601_ec8c
  {
    hide Xor, Absorb, HashFrom;
    HashNothing();
    LowByte();
    HashSnoc([], 0x61);
    assert [] + [0x61] == [0x61];
    AbsorbValue(0xcbf2_9ce4_8422_2325, 0x61, 0x44, 0xcbf29ce5de, 0xaf63_dc4c_8601_ec8c);
  }

  lemma HashNothing()
    ensures Hash([]) == 0xcbf2_9ce4_8422_2325
  {
  }

  function Power(base: nat, k: nat): nat { if k == 0 then 1 else base * Power(base, k - 1) }

  /** A number below the `k`-th power of the base takes at most `k` digits. */
  lemma {:induction false} DigitsFit(n: nat, base: nat, k: nat)
    requires base >= 2 && k > 0 && n < Power(base, k)
    ensures |Numerals.Digits(n, base)| <= k
    decreases k
  {
    Numerals.DivShrinks(n, base);
    assert Power(base, 1) == base * Power(base, 0) == base;
    if n >= base {
      assert k > 1;
      DivBelow(n, base, Power(base, k - 1));
      DigitsFit(n / base, base, k - 1);
    }
  }

  lemma DivBelow(n: nat, base: nat, m: nat)
    requires base > 0 && n < base * m
    ensures n / base < m
  {
    Numerals.DivMod(n, base);
    assert (n / base - m) * base < 0;
  }

  lemma SixteenPow()
    ensures Power(16, 16) == U64_RANGE
  {
    assert Power(16, 4) == 0x1_0000;
    assert Power(16, 8) == 0x1_0000_0000;
    assert Power(16, 12) == 0x1_0000_0000_0000;
  }

  /** The name is the hash in sixteen hexadecimal digits, in small letters, then `.sock`. */
  lemma SocketNamesExactly(root: bytes)
    ensures
      var name, digits := SocketName(root), Numerals.Padded(Hash(root), 16, 16);
      && |digits| == 16 && |name| == 21 && name[16..] == ".sock"
      && (forall i :: 0 <= i < 16 ==> digits[i] < 16 && name[i] == "0123456789abcdef"[digits[i]])
      && Numerals.Value(digits, 16) == Hash(root)
  {
    SixteenPow();
    DigitsFit(Hash(root), 16, 16);
    Numerals.ValueOfPadded(Hash(root), 16, 16);
  }
}
