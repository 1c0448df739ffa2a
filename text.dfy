/**
 * Character-level helpers shared by the loaders, the text sanitiser and the
 * analytics layer: Python's whitespace class, Python truthiness of optional
 * strings, and decimal rendering of integers (the contract links, the year in
 * a time period).
 */
module Text {
  import opened Wrappers

  /**
   * Python's whitespace class for `str`: the characters `str.isspace()`
   * accepts, which are also what the regular-expression class `\s` and
   * `str.strip()` use.
   */
  predicate IsSpace(c: char) {
    c == ' ' || '\t' <= c <= '\r' || '\U{001C}' <= c <= '\U{001F}' || c == '\U{0085}'
    || c == '\U{00A0}' || c == '\U{1680}' || '\U{2000}' <= c <= '\U{200A}' || c == '\U{2028}'
    || c == '\U{2029}' || c == '\U{202F}' || c == '\U{205F}' || c == '\U{3000}'
  }

  /** `s.strip() == ""`: the string is empty or only whitespace. */
  predicate IsBlank(s: string) {
    forall i :: 0 <= i < |s| ==> IsSpace(s[i])
  }

  /** Python truthiness of an optional string: present and non-empty. */
  predicate Truthy(s: Option<string>) {
    s.Some? && s.value != ""
  }

  /** Python truthiness of an optional integer: present and non-zero. */
  predicate TruthyInt(x: Option<int>) {
    x.Some? && x.value != 0
  }

  /** Python's `a or b` on optional strings. */
  function OrElse(a: Option<string>, b: Option<string>): Option<string> {
    if Truthy(a) then a else b
  }

  /** `x if x and str(x).strip() else None`: blank values become None. */
  function NonBlank(s: Option<string>): (r: Option<string>)
    ensures r.Some? <==> s.Some? && !IsBlank(s.value)
    ensures r.Some? ==> r == s
  {
    if s.Some? && !IsBlank(s.value) then s else None
  }

  // ---------------------------------------------------------------- digits

  predicate IsDigit(c: char) {
    '0' <= c <= '9'
  }

  predicate AllDigits(s: string) {
    forall i :: 0 <= i < |s| ==> IsDigit(s[i])
  }

  function DigitChar(d: nat): (c: char)
    requires d < 10
    ensures IsDigit(c) && c as int - '0' as int == d
  {
    "0123456789"[d]
  }

  function DigitValue(c: char): (d: nat)
    requires IsDigit(c)
    ensures d < 10 && DigitChar(d) == c
  {
    c as int - '0' as int
  }

  /** The number a string of decimal digits denotes (leading zeros allowed). */
  function DecimalValue(s: string): nat
    requires AllDigits(s)
  {
    if s == [] then 0 else DecimalValue(s[..|s| - 1]) * 10 + DigitValue(s[|s| - 1])
  }

  function Pow10(n: nat): (r: nat)
    ensures r >= 1
  {
    if n == 0 then 1 else 10 * Pow10(n - 1)
  }

  /** The `w` lowest decimal digits of `n`, zero-padded: `f"{n:0{w}d}"` for `n < 10^w`. */
  function PadDigits(n: nat, w: nat): (r: string)
    ensures |r| == w && AllDigits(r)
  {
    if w == 0 then "" else PadDigits(n / 10, w - 1) + [DigitChar(n % 10)]
  }

  /** Reading back a padded rendering gives the number modulo `10^w`. */
  lemma {:induction false} PadDigitsValue(n: nat, w: nat)
    ensures DecimalValue(PadDigits(n, w)) == n % Pow10(w)
  {
    if w > 0 {
      var p := PadDigits(n, w);
      assert p[..|p| - 1] == PadDigits(n / 10, w - 1);
      PadDigitsValue(n / 10, w - 1);
      DivModPow10(n, w);
    }
  }

  lemma DivModPow10(n: nat, w: nat)
    requires w > 0
    ensures (n / 10) % Pow10(w - 1) * 10 + n % 10 == n % Pow10(w)
  {
    var p := Pow10(w - 1);
    var q, b := n / 10, (n / 10) % p;
    var a := q / p;
    assert q == a * p + b;
    assert n == q * 10 + n % 10;
    assert n == a * (10 * p) + (b * 10 + n % 10) by {
      assert q * 10 == a * p * 10 + b * 10;
      assert a * p * 10 == a * (10 * p);
    }
    ModUnique(n, 10 * p, a, b * 10 + n % 10);
  }

  /** Euclidean division is unique: a quotient and remainder that fit are the ones. */
  lemma ModUnique(n: int, m: int, k: int, r: int)
    requires m > 0 && 0 <= r < m && n == k * m + r
    ensures n % m == r
  {
    var q, s := n / m, n % m;
    assert (q - k) * m == r - s by {
      assert q * m + s == k * m + r;
      assert (q - k) * m == q * m - k * m;
    }
    SmallMultiple(q - k, m);
  }

  /** Counting up by one wraps the remainder to zero exactly at a multiple. */
  lemma ModNext(n: nat, m: nat)
    requires m > 0
    ensures (n + 1) % m == if n % m + 1 < m then n % m + 1 else 0
  {
    var q := n / m;
    assert n == q * m + n % m;
    if n % m + 1 < m {
      ModUnique(n + 1, m, q, n % m + 1);
    } else {
      assert (q + 1) * m == q * m + m;
      ModUnique(n + 1, m, q + 1, 0);
    }
  }

  /** Counting up by one adds a whole quotient exactly when the remainder wraps. */
  lemma DivNext(n: nat, m: nat)
    requires m > 0
    ensures (n + 1) / m == n / m + (if (n + 1) % m == 0 then 1 else 0)
  {
    ModNext(n, m);
    var q, q1 := n / m, (n + 1) / m;
    assert n == q * m + n % m;
    assert n + 1 == q1 * m + (n + 1) % m;
    if (n + 1) % m == 0 {
      assert (q1 - q - 1) * m == 0 by {
        assert (q1 - q - 1) * m == q1 * m - q * m - m;
      }
      SmallMultiple(q1 - q - 1, m);
    } else {
      assert (q1 - q) * m == 0 by {
        assert (q1 - q) * m == q1 * m - q * m;
      }
      SmallMultiple(q1 - q, m);
    }
  }

  lemma ModNextBelow(n: nat, m: nat)
    requires m > 0 && (n + 1) % m != 0
    ensures (n + 1) % m == n % m + 1
  {
    ModNext(n, m);
  }

  /** Dropping the remainder leaves a multiple. */
  lemma WholeBatches(n: nat, m: nat)
    requires m > 0
    ensures (n - n % m) % m == 0
  {
    assert n == (n / m) * m + n % m;
    ModUnique(n - n % m, m, n / m, 0);
  }

  lemma SmallMultiple(d: int, m: int)
    requires m > 0 && -m < d * m < m
    ensures d == 0
  {
    if d >= 1 {
      MulAtLeast(d, m);
    } else if d <= -1 {
      MulAtLeast(-d, m);
    }
  }

  lemma MulAtLeast(a: int, m: int)
    requires a >= 1 && m > 0
    ensures a * m >= m
  {
  }

  lemma ConcatAssoc<T>(a: seq<T>, b: seq<T>, c: seq<T>, d: seq<T>)
    ensures a + (b + (c + d)) == a + b + c + d
  {
  }

  lemma ConcatAssoc3<T>(a: seq<T>, b: seq<T>, c: seq<T>)
    ensures a + (b + c) == a + b + c
  {
  }

  /** Any digit string is the padded rendering of its own value. */
  lemma {:induction false} PadDigitsOfValue(s: string)
    requires AllDigits(s)
    ensures PadDigits(DecimalValue(s), |s|) == s
  {
    if s != [] {
      var init := s[..|s| - 1];
      PadDigitsOfValue(init);
      var v := DecimalValue(s);
      assert v / 10 == DecimalValue(init);
      assert v % 10 == DigitValue(s[|s| - 1]);
      assert s == init + [s[|s| - 1]];
    }
  }

  /** Python `str(n)` for a natural number: no leading zeros. */
  function NatToDecimal(n: nat): (r: string)
    ensures |r| >= 1 && AllDigits(r)
    ensures |r| > 1 ==> r[0] != '0'
  {
    if n < 10 then [DigitChar(n)] else NatToDecimal(n / 10) + [DigitChar(n % 10)]
  }

  /** Python `str(i)` for an integer. */
  function IntToDecimal(i: int): string {
    if i < 0 then "-" + NatToDecimal(-i) else NatToDecimal(i)
  }

  /** `str(n)` reads back as `n`. */
  lemma {:induction false} NatToDecimalValue(n: nat)
    ensures DecimalValue(NatToDecimal(n)) == n
  {
    if n >= 10 {
      var r := NatToDecimal(n);
      assert r[..|r| - 1] == NatToDecimal(n / 10);
      NatToDecimalValue(n / 10);
    }
  }

  lemma NatToDecimalInjective(a: nat, b: nat)
    requires NatToDecimal(a) == NatToDecimal(b)
    ensures a == b
  {
    NatToDecimalValue(a);
    NatToDecimalValue(b);
  }

  /** Different integers print differently, so distinct ids give distinct links. */
  lemma IntToDecimalInjective(a: int, b: int)
    requires IntToDecimal(a) == IntToDecimal(b)
    ensures a == b
  {
    var sa, sb := IntToDecimal(a), IntToDecimal(b);
    assert sa[0] == '-' <==> a < 0;
    assert sb[0] == '-' <==> b < 0;
    if a < 0 {
      assert sa[1..] == NatToDecimal(-a) && sb[1..] == NatToDecimal(-b);
      NatToDecimalInjective(-a, -b);
    } else {
      NatToDecimalInjective(a, b);
    }
  }
}
