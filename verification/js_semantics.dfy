/**
 * The few pieces of JavaScript semantics the modelled stores and components
 * rely on: `null`/`undefined` as an absent value, string truthiness, the
 * 32-bit integer view (`ToInt32`) used by the shift operators, the UTF-16
 * code units that `charCodeAt` reads, and the decimal text of a
 * non-negative integer used by template literals.
 */
module JsSemantics {

  /** An absent (`null` or `undefined`) or present value. */
  datatype Option<+T> = None | Some(value: T)

  /** `m.get(k)` on a key/value storage: absent keys read as `null`. */
  function Get<K, V>(m: map<K, V>, k: K): (r: Option<V>)
    ensures r.Some? <==> k in m
    ensures r.Some? ==> r.value == m[k]
  {
    if k in m then Some(m[k]) else None
  }

  /** A string-or-null is truthy exactly when it is present and non-empty. */
  predicate Truthy(s: Option<string>)
  {
    s.Some? && s.value != ""
  }

  const TwoTo31: int := 0x8000_0000
  const TwoTo32: int := 0x1_0000_0000

  /** Two integers agree modulo 2^32. */
  predicate Congruent32(a: int, b: int)
  {
    (a - b) % TwoTo32 == 0
  }

  /** ECMAScript ToInt32 on an integral number: wrap into [-2^31, 2^31). */
  function ToInt32(x: int): (r: int)
    ensures -TwoTo31 <= r < TwoTo31
    ensures Congruent32(x, r)
    ensures -TwoTo31 <= x < TwoTo31 ==> r == x
  {
    var m := x % TwoTo32;
    if m >= TwoTo31 then m - TwoTo32 else m
  }

  /** Congruent values have the same 32-bit view, and only they do. */
  lemma ToInt32Congruent(a: int, b: int)
    ensures ToInt32(a) == ToInt32(b) <==> Congruent32(a, b)
  {
    var ra, rb := ToInt32(a), ToInt32(b);
    assert (a - ra) % TwoTo32 == 0 && (b - rb) % TwoTo32 == 0;
    var ka, kb := (a - ra) / TwoTo32, (b - rb) / TwoTo32;
    assert a == ra + ka * TwoTo32;
    assert b == rb + kb * TwoTo32;
    if Congruent32(a, b) {
      var k := (a - b) / TwoTo32;
      assert a - b == k * TwoTo32;
      assert ra - rb == (k - ka + kb) * TwoTo32;
      assert -TwoTo32 < ra - rb < TwoTo32;
    }
    if ra == rb {
      assert a - b == (ka - kb) * TwoTo32;
    }
  }

  /** Congruence modulo 2^32 is kept by adding and by multiplying by a constant. */
  lemma CongruentLinear(a: int, b: int, m: int, c: int)
    requires Congruent32(a, b)
    ensures Congruent32(m * a + c, m * b + c)
  {
    var k := (a - b) / TwoTo32;
    assert a - b == k * TwoTo32;
    assert (m * a + c) - (m * b + c) == (m * k) * TwoTo32;
  }

  /** Wrapping before and after a scaling agrees with the scaled unwrapped value modulo 2^32. */
  lemma WrapScaled(x: int, p: int)
    ensures Congruent32(ToInt32(ToInt32(x) * p), x * p)
  {
    var y := ToInt32(x);
    var r := ToInt32(y * p);
    var kx := (x - y) / TwoTo32;
    var kr := (y * p - r) / TwoTo32;
    assert x - y == kx * TwoTo32;
    assert y * p - r == kr * TwoTo32;
    assert x * p == y * p + (kx * p) * TwoTo32;
    assert r - x * p == (-kr - kx * p) * TwoTo32;
  }

  lemma CongruentTrans(a: int, b: int, c: int)
    requires Congruent32(a, b) && Congruent32(b, c)
    ensures Congruent32(a, c)
  {
    var k1, k2 := (a - b) / TwoTo32, (b - c) / TwoTo32;
    assert a - b == k1 * TwoTo32 && b - c == k2 * TwoTo32;
    assert a - c == (k1 + k2) * TwoTo32;
  }

  function Pow2(n: nat): (p: nat)
    ensures p >= 1
  {
    if n == 0 then 1 else 2 * Pow2(n - 1)
  }

  /** `x << count` on numbers: both operand and result are 32-bit integers. */
  function ShiftLeft(x: int, count: nat): (r: int)
    requires count < 32
    ensures -TwoTo31 <= r < TwoTo31
    ensures Congruent32(r, x * Pow2(count))
  {
    WrapScaled(x, Pow2(count));
    ToInt32(ToInt32(x) * Pow2(count))
  }

  /** One UTF-16 code unit, the value `charCodeAt` returns. */
  type CodeUnit = x: int | 0 <= x < 0x1_0000

  /**
   * The UTF-16 code units of a string, as a JavaScript engine stores it:
   * a character of the Basic Multilingual Plane is one unit, any other
   * a surrogate pair.
   */
  function Utf16(s: string): (u: seq<CodeUnit>)
    ensures |s| <= |u| <= 2 * |s|
    ensures (forall i :: 0 <= i < |s| ==> (s[i] as int) < 0x1_0000) ==> |u| == |s|
  {
    if s == [] then []
    else
      var c := s[0] as int;
      var head: seq<CodeUnit> :=
        if c < 0x1_0000 then [c]
        else [0xD800 + (c - 0x1_0000) / 0x400, 0xDC00 + (c - 0x1_0000) % 0x400];
      head + Utf16(s[1..])
  }

  function DigitChar(d: nat): (c: char)
    requires d < 10
    ensures '0' <= c <= '9'
  {
    ('0' as int + d) as char
  }

  /** Template-literal text of a non-negative integer (`${n}`). */
  function NatToString(n: nat): (s: string)
    ensures s != []
    ensures forall i :: 0 <= i < |s| ==> '0' <= s[i] <= '9'
  {
    if n < 10 then [DigitChar(n)] else NatToString(n / 10) + [DigitChar(n % 10)]
  }

  /** The number a string of decimal digits denotes. */
  function DecimalValue(s: string): nat
    requires forall i :: 0 <= i < |s| ==> '0' <= s[i] <= '9'
  {
    if s == [] then 0
    else DecimalValue(s[..|s| - 1]) * 10 + (s[|s| - 1] as int - '0' as int)
  }

  /** Reading back the decimal text of `n` gives `n`. */
  lemma {:induction false} NatToStringRoundTrip(n: nat)
    ensures DecimalValue(NatToString(n)) == n
  {
    var s := NatToString(n);
    if n >= 10 {
      NatToStringRoundTrip(n / 10);
      assert s[..|s| - 1] == NatToString(n / 10);
    }
  }

  /** Distinct numbers have distinct decimal texts. */
  lemma NatToStringInjective(m: nat, n: nat)
    requires NatToString(m) == NatToString(n)
    ensures m == n
  {
    NatToStringRoundTrip(m);
    NatToStringRoundTrip(n);
  }
}
