/** The 32-bit fingerprint of a block: a signed loop, its unsigned meaning, and when two never collide. */
module Fingerprint {

  /** One UTF-16 code unit. */
  type CodeUnit = u: nat | u < 0x1_0000

  const MODULUS: nat := 0x1_0000_0000
  const OFFSET: nat := 2166136261
  const PRIME: nat := 16777619
  /** The inverse of the prime modulo 2 to the 32. */
  const INVERSE: nat := 899433627

  // ----------------------------------------------------- 32-bit operators of ECMAScript

  function ToUint32(x: int): nat {
    x % MODULUS
  }

  function ToInt32(x: int): int {
    var u := ToUint32(x);
    if u < 0x8000_0000 then u else u - MODULUS
  }

  /** Exclusive or of the lowest `bits` bits. */
  function Xor(a: nat, b: nat, bits: nat): nat {
    if bits == 0 then 0
    else (if a % 2 == b % 2 then 0 else 1) + 2 * Xor(a / 2, b / 2, bits - 1)
  }

  function XorInt32(a: int, b: int): int {
    ToInt32(Xor(ToUint32(a), ToUint32(b), 32))
  }

  function Imul(a: int, b: int): int {
    ToInt32(ToUint32(a) * ToUint32(b))
  }

  // ----------------------------------------------------------- the unsigned meaning

  function Mix(hash: nat, unit: CodeUnit): nat {
    Xor(hash, unit, 32) * PRIME % MODULUS
  }

  /** FNV-1a over code units, as a fold modulo 2 to the 32. */
  function Hash(input: seq<CodeUnit>): (h: nat)
    ensures h < MODULUS
  {
    if input == [] then OFFSET else Mix(Hash(input[..|input| - 1]), input[|input| - 1])
  }

  function Digit(d: nat): char
    requires d < 16
  {
    "0123456789abcdef"[d]
  }

  /** `toString(16)`. */
  function Hex(n: nat): (r: string)
    ensures r != []
  {
    if n < 16 then [Digit(n)] else Hex(n / 16) + [Digit(n % 16)]
  }

  function PadStart(s: string, width: nat): string
    decreases width - |s|
  {
    if |s| < width then PadStart("0" + s, width) else s
  }

  function Printed(hash: nat): string {
    "ccb_" + PadStart(Hex(hash), 8)
  }

  lemma SignedStep(hash: int, unit: CodeUnit)
    ensures ToUint32(Imul(XorInt32(hash, unit), PRIME)) == Mix(ToUint32(hash), unit)
  {
    var x := Xor(ToUint32(hash), unit, 32);
    XorFits(ToUint32(hash), unit, 32);
    assert ToUint32(XorInt32(hash, unit)) == x % MODULUS == x;
    assert ToUint32(PRIME) == PRIME;
    SignedIsCongruent(x * PRIME);
  }

  lemma SignedIsCongruent(x: int)
    ensures ToUint32(ToInt32(x)) == ToUint32(x)
  {
  }

  /** The loop, on signed 32-bit numbers. */
  method Fingerprint(input: seq<CodeUnit>) returns (id: string)
    ensures id == Printed(Hash(input))
  {
    var hash: int := 2166136261;
    for index := 0 to |input|
      invariant ToUint32(hash) == Hash(input[..index])
    {
      assert input[..index + 1][..index] == input[..index];
      SignedStep(hash, input[index]);
      hash := XorInt32(hash, input[index]);
      hash := Imul(hash, 16777619);
    }
    assert input[..|input|] == input;
    id := "ccb_" + PadStart(Hex(ToUint32(hash)), 8);
  }

  // ------------------------------------------------------- every step is a bijection

  function Power2(n: nat): nat {
    if n == 0 then 1 else 2 * Power2(n - 1)
  }

  lemma Power2Of32()
    ensures Power2(32) == MODULUS
  {
    assert Power2(8) == 256;
    assert Power2(16) == 65536;
    assert Power2(24) == 16777216;
  }

  lemma {:induction false} XorBound(a: nat, b: nat, bits: nat)
    ensures Xor(a, b, bits) < Power2(bits)
  {
    if bits > 0 {
      XorBound(a / 2, b / 2, bits - 1);
    }
  }

  lemma XorFits(a: nat, b: nat, bits: nat)
    requires bits == 32
    ensures Xor(a, b, bits) < MODULUS
  {
    XorBound(a, b, bits);
    Power2Of32();
  }

  lemma XorParts(a: nat, b: nat, bits: nat)
    requires bits > 0
    ensures var x := Xor(a, b, bits);
      x % 2 == (if a % 2 == b % 2 then 0 else 1) && x / 2 == Xor(a / 2, b / 2, bits - 1)
      && x == x % 2 + 2 * (x / 2)
  {
  }

  /** Exclusive or undoes itself, on either side. */
  lemma {:induction false} XorCancels(a: nat, b: nat, bits: nat)
    requires a < Power2(bits)
    ensures Xor(Xor(a, b, bits), b, bits) == a && Xor(b, Xor(b, a, bits), bits) == a
  {
    if bits > 0 {
      assert a / 2 < Power2(bits - 1);
      XorCancels(a / 2, b / 2, bits - 1);
      hide Xor;
      XorParts(a, b, bits);
      XorParts(b, a, bits);
      XorParts(Xor(a, b, bits), b, bits);
      XorParts(b, Xor(b, a, bits), bits);
    } else {
      XorOfNothing(Xor(a, b, 0), b);
      XorOfNothing(b, Xor(b, a, 0));
    }
  }

  lemma XorOfNothing(a: nat, b: nat)
    ensures Xor(a, b, 0) == 0
  {
  }

  lemma PrimeTimesInverse()
    ensures PRIME * INVERSE == 1 + 3513497 * MODULUS
  {
  }

  /** Multiplying by the prime loses nothing modulo 2 to the 32. */
  lemma MultiplicationIsInjective(x: nat, y: nat)
    requires x < MODULUS && y < MODULUS && x * PRIME % MODULUS == y * PRIME % MODULUS
    ensures x == y
  {
    PrimeTimesInverse();
    var k := x * PRIME / MODULUS - y * PRIME / MODULUS;
    assert (x - y) * PRIME == k * MODULUS;
    assert (x - y) * PRIME * INVERSE == k * MODULUS * INVERSE;
    assert (x - y) * (1 + 3513497 * MODULUS) == k * INVERSE * MODULUS;
    var m := k * INVERSE - (x - y) * 3513497;
    assert x - y == m * MODULUS;
  }

  lemma MixIsInjective(h: nat, g: nat, c: CodeUnit, d: CodeUnit)
    requires h < MODULUS && g < MODULUS && Mix(h, c) == Mix(g, d)
    ensures h == g <==> c == d
  {
    XorFits(h, c, 32);
    XorFits(g, d, 32);
    MultiplicationIsInjective(Xor(h, c, 32), Xor(g, d, 32));
    Power2Of32();
    XorCancels(h, c, 32);
    XorCancels(g, d, 32);
    XorCancels(c, h, 32);
    XorCancels(d, g, 32);
  }

  /** Different states stay different under the same input. */
  lemma {:induction false} SuffixKeepsApart(a: seq<CodeUnit>, b: seq<CodeUnit>, suffix: seq<CodeUnit>)
    requires Hash(a) != Hash(b)
    ensures Hash(a + suffix) != Hash(b + suffix)
  {
    if suffix == [] {
      assert a + suffix == a && b + suffix == b;
    } else {
      var n := |suffix| - 1;
      SuffixKeepsApart(a, b, suffix[..n]);
      assert (a + suffix)[..|a| + n] == a + suffix[..n];
      assert (b + suffix)[..|b| + n] == b + suffix[..n];
      if Hash(a + suffix) == Hash(b + suffix) {
        MixIsInjective(Hash(a + suffix[..n]), Hash(b + suffix[..n]), suffix[n], suffix[n]);
      }
    }
  }

  // ------------------------------------------------------------- printing is injective

  function DigitValue(c: char): int {
    if '0' <= c <= '9' then c as int - '0' as int else c as int - 'a' as int + 10
  }

  function ValueOf(s: string): int {
    if s == [] then 0 else ValueOf(s[..|s| - 1]) * 16 + DigitValue(s[|s| - 1])
  }

  lemma ValueOfDigit(d: nat)
    requires d < 16
    ensures DigitValue(Digit(d)) == d
  {
  }

  lemma LastDigit(s: string, c: char)
    ensures ValueOf(s + [c]) == ValueOf(s) * 16 + DigitValue(c)
  {
    assert (s + [c])[..|s|] == s;
  }

  lemma {:induction false} HexValue(n: nat)
    ensures ValueOf(Hex(n)) == n
  {
    hide Digit, DigitValue, ValueOf;
    ValueOfDigit(n % 16);
    if n >= 16 {
      HexValue(n / 16);
      LastDigit(Hex(n / 16), Digit(n % 16));
    } else {
      LastDigit([], Digit(n));
      assert [] + [Digit(n)] == [Digit(n)];
      assert ValueOf([]) == 0 by { NoDigits(); }
    }
  }

  lemma NoDigits()
    ensures ValueOf([]) == 0
  {
  }

  lemma {:induction false} LeadingZero(s: string)
    ensures ValueOf("0" + s) == ValueOf(s)
  {
    if s != [] {
      LeadingZero(s[..|s| - 1]);
      assert ("0" + s)[..|s|] == "0" + s[..|s| - 1];
    }
  }

  lemma {:induction false} PaddedValue(s: string, width: nat)
    ensures ValueOf(PadStart(s, width)) == ValueOf(s)
    decreases width - |s|
  {
    if |s| < width {
      LeadingZero(s);
      PaddedValue("0" + s, width);
    }
  }

  lemma PrintedIsInjective(h: nat, g: nat)
    requires Printed(h) == Printed(g)
    ensures h == g
  {
    assert Printed(h)[4..] == PadStart(Hex(h), 8) && Printed(g)[4..] == PadStart(Hex(g), 8);
    PaddedValue(Hex(h), 8);
    PaddedValue(Hex(g), 8);
    HexValue(h);
    HexValue(g);
  }

  lemma {:induction false} HexWidth(n: nat, k: nat)
    requires k >= 1 && n < Power2(4 * k)
    ensures |Hex(n)| <= k
  {
    assert Power2(4 * k) == 16 * Power2(4 * (k - 1)) by {
      assert Power2(4 * k) == 2 * Power2(4 * k - 1);
      assert Power2(4 * k - 1) == 2 * Power2(4 * k - 2);
      assert Power2(4 * k - 2) == 2 * Power2(4 * k - 3);
    }
    if n >= 16 {
      assert k > 1;
      HexWidth(n / 16, k - 1);
    }
  }

  lemma {:induction false} PaddedWidth(s: string, width: nat)
    requires |s| <= width
    ensures |PadStart(s, width)| == width
    decreases width - |s|
  {
    if |s| < width {
      PaddedWidth("0" + s, width);
    }
  }

  lemma {:induction false} XorOfZero(a: nat, bits: nat)
    requires a < Power2(bits)
    ensures Xor(a, 0, bits) == a
  {
    if bits > 0 {
      XorOfZero(a / 2, bits - 1);
    }
  }

  lemma FirstXor()
    ensures Xor(2166136261, 97, 32) == 2166136228
  {
    assert Power2(8) == 256;
    assert Power2(16) == 65536;
    assert Power2(25) == 33554432;
    XorOfZero(16922939, 25);
    assert Xor(33845879, 1, 26) == 33845878;
    assert Xor(67691758, 3, 27) == 67691757;
    assert Xor(135383516, 6, 28) == 135383514;
    assert Xor(270767032, 12, 29) == 270767028;
    assert Xor(541534065, 24, 30) == 541534057;
    assert Xor(1083068130, 48, 31) == 1083068114;
    assert Xor(2166136261, 97, 32) == 2166136228;
  }

  lemma HexDigit(d: nat)
    requires d < 16
    ensures Hex(d) == [Digit(d)]
  {
  }

  lemma HexNext(n: nat, d: nat)
    requires n > 0 && d < 16
    ensures Hex(16 * n + d) == Hex(n) + [Digit(d)]
  {
  }

  lemma HexOfA()
    ensures Hex(0xe40c292c) == "e40c292c"
  {
    hide Hex, Digit;
    HexDigit(14);
    HexNext(0xe, 4);
    HexNext(0xe4, 0);
    HexNext(0xe40, 12);
    HexNext(0xe40c, 2);
    HexNext(0xe40c2, 9);
    HexNext(0xe40c29, 2);
    HexNext(0xe40c292, 12);
    assert Hex(0xe40c292c) == [Digit(14), Digit(4), Digit(0), Digit(12), Digit(2), Digit(9), Digit(2), Digit(12)];
    Digits();
  }

  lemma HexOfOffset()
    ensures Hex(0x811c9dc5) == "811c9dc5"
  {
    hide Hex, Digit;
    HexDigit(8);
    HexNext(0x8, 1);
    HexNext(0x81, 1);
    HexNext(0x811, 12);
    HexNext(0x811c, 9);
    HexNext(0x811c9, 13);
    HexNext(0x811c9d, 12);
    HexNext(0x811c9dc, 5);
    assert Hex(0x811c9dc5) == [Digit(8), Digit(1), Digit(1), Digit(12), Digit(9), Digit(13), Digit(12), Digit(5)];
    Digits();
  }

  lemma Digits()
    ensures Digit(0) == '0' && Digit(1) == '1' && Digit(2) == '2' && Digit(4) == '4' && Digit(5) == '5'
    ensures Digit(8) == '8' && Digit(9) == '9' && Digit(12) == 'c' && Digit(13) == 'd' && Digit(14) == 'e'
  {
  }

  /** The published FNV-1a values of the empty text and of "a": the constants and the order of the two operations. */
  lemma PublishedValues()
    ensures Printed(Hash([])) == "ccb_811c9dc5"
    ensures Printed(Hash(['a' as int])) == "ccb_e40c292c"
  {
    hide Hex, Xor;
    HexOfA();
    HexOfOffset();
    FirstXor();
    assert ['a' as int][..0] == [];
    assert 'a' as int == 97;
    assert 2166136228 * PRIME % MODULUS == 0xe40c292c;
  }

  /** Every fingerprint has the prefix and exactly eight digits. */
  lemma FingerprintShape(input: seq<CodeUnit>)
    ensures |Printed(Hash(input))| == 12
  {
    Power2Of32();
    HexWidth(Hash(input), 8);
    PaddedWidth(Hex(Hash(input)), 8);
  }

  /** Two blocks that differ in exactly one code unit never share a fingerprint. */
  lemma OneUnitApartNeverCollides(prefix: seq<CodeUnit>, c: CodeUnit, d: CodeUnit, suffix: seq<CodeUnit>)
    requires c != d
    ensures Printed(Hash(prefix + [c] + suffix)) != Printed(Hash(prefix + [d] + suffix))
  {
    assert (prefix + [c])[..|prefix|] == prefix && (prefix + [d])[..|prefix|] == prefix;
    if Hash(prefix + [c]) == Hash(prefix + [d]) {
      MixIsInjective(Hash(prefix), Hash(prefix), c, d);
    }
    SuffixKeepsApart(prefix + [c], prefix + [d], suffix);
    if Printed(Hash(prefix + [c] + suffix)) == Printed(Hash(prefix + [d] + suffix)) {
      PrintedIsInjective(Hash(prefix + [c] + suffix), Hash(prefix + [d] + suffix));
    }
  }
}
