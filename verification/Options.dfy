/** Stock helpers: the source's `undefined` and `null` results, iteration over a set, numbers as text. */
module Options {
  datatype Option<+T> = None | Some(value: T)

  function Max(a: int, b: int): int {
    if a < b then b else a
  }

  function Min(a: int, b: int): int {
    if a < b then a else b
  }

  /** Some member of a non-empty set: what an iterator over it yields next. */
  method Pick<T(==)>(s: set<T>) returns (x: T)
    requires s != {}
    ensures x in s
  {
    x :| x in s;
  }

  const DIGITS := "0123456789"

  /** How a number reads in a template string. */
  function Decimal(n: nat): string {
    if n < 10 then [DIGITS[n]] else Decimal(n / 10) + [DIGITS[n % 10]]
  }

  lemma {:induction false} DecimalIsShort(n: nat)
    ensures 1 <= |Decimal(n)| <= 1 + n / 10
  {
    if n >= 10 { DecimalIsShort(n / 10); }
  }

  /** A number reads as digits, and as one digit exactly when it is smaller than ten. */
  lemma {:induction false} DecimalIsDigits(n: nat)
    ensures forall i :: 0 <= i < |Decimal(n)| ==> '0' <= Decimal(n)[i] <= '9'
    ensures |Decimal(n)| == 1 <==> n < 10
    ensures n < 10 ==> Decimal(n) == [DIGITS[n]]
    ensures n < 10 ==> (Decimal(n)[0] == '0' <==> n == 0)
  {
    if n >= 10 {
      DecimalIsShort(n / 10);
      DecimalIsDigits(n / 10);
    }
  }

  /** Different numbers read differently. */
  lemma {:induction false} DecimalIsInjective(a: nat, b: nat)
    requires Decimal(a) == Decimal(b)
    ensures a == b
    decreases a
  {
    DecimalIsDigits(a);
    DecimalIsDigits(b);
    if a >= 10 {
      var n := |Decimal(a)| - 1;
      assert Decimal(a)[..n] == Decimal(a / 10) && Decimal(b)[..n] == Decimal(b / 10);
      DecimalIsInjective(a / 10, b / 10);
      assert DIGITS[a % 10] == Decimal(a)[n] == Decimal(b)[n] == DIGITS[b % 10];
      SameDigit(a % 10, b % 10);
    } else {
      SameDigit(a, b);
    }
  }

  lemma SameDigit(a: nat, b: nat)
    requires a < 10 && b < 10 && DIGITS[a] == DIGITS[b]
    ensures a == b
  {
  }

  /** White space and line terminators, as `String.prototype.trim` strips them and a pattern's `\s` matches them. */
  predicate IsSpace(c: char) {
    || '\t' <= c <= '\r' || c == ' ' || c == '\U{A0}' || c == '\U{1680}' || '\U{2000}' <= c <= '\U{200A}'
    || c == '\U{2028}' || c == '\U{2029}' || c == '\U{202F}' || c == '\U{205F}' || c == '\U{3000}' || c == '\U{FEFF}'
  }
}
