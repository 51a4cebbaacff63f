/**
 * The few pieces of java.lang the core relies on, with Java's 32-bit int semantics written out:
 * String.hashCode, the truncating remainder `%`, Math.abs(int), String.compareTo and
 * String.valueOf(int).
 */
module JavaLang {
  import Sorting

  const INT_MIN: int := -0x8000_0000
  const INT_MAX: int := 0x7fff_ffff

  predicate IsInt(x: int) { INT_MIN <= x <= INT_MAX }

  /** Two's-complement wrap-around of an int result. */
  function Wrap32(x: int): (r: int)
    ensures IsInt(r) && (x - r) % 0x1_0000_0000 == 0
    ensures IsInt(x) ==> r == x
  {
    var m := x % 0x1_0000_0000;
    if m > INT_MAX then m - 0x1_0000_0000 else m
  }

  /** String.hashCode: h = 31 * h + c over the characters, in int arithmetic. */
  function StringHashCode(s: string): (h: int)
    ensures IsInt(h)
  {
    if s == [] then 0
    else Wrap32(31 * StringHashCode(s[..|s| - 1]) + s[|s| - 1] as int)
  }

  /** Java's `a % b` for a positive divisor: truncates toward zero, so the result takes the sign of `a`. */
  function JavaRem(a: int, b: int): (r: int)
    requires b > 0
    ensures -b < r < b
    ensures a >= 0 ==> r == a % b
    ensures a < 0 ==> r == -((-a) % b)
  {
    if a >= 0 then a % b else -((-a) % b)
  }

  function Abs(x: int): nat { if x < 0 then -x else x }

  /** Math.abs(int): the negation of Integer.MIN_VALUE overflows back to itself. */
  function JavaAbs(x: int): (r: int)
    requires IsInt(x)
    ensures x != INT_MIN ==> r == Abs(x)
    ensures x == INT_MIN ==> r == INT_MIN
  {
    if x == INT_MIN then INT_MIN else Abs(x)
  }

  /**
   * The partition that owns a primary-key fingerprint:
   * `Math.abs(keys.hashCode() % threadCount)`.
   */
  function Partition(keys: string, threadCount: int): (p: int)
    requires 1 <= threadCount <= INT_MAX
    ensures 0 <= p < threadCount
    ensures p == Abs(StringHashCode(keys)) % threadCount
  {
    var h := StringHashCode(keys);
    var rem := JavaRem(h, threadCount);
    assert rem != INT_MIN;
    assert Abs(rem) == Abs(h) % threadCount;
    JavaAbs(rem)
  }

  /** `a.compareTo(b) < 0`: lexicographic on characters, a proper prefix comes first. */
  predicate StrLess(a: string, b: string) {
    if a == [] then b != []
    else if b == [] then false
    else if a[0] != b[0] then a[0] < b[0]
    else StrLess(a[1..], b[1..])
  }

  lemma {:induction false} StrLessIrreflexive(a: string)
    ensures !StrLess(a, a)
  {
    if a != [] { StrLessIrreflexive(a[1..]); }
  }

  lemma {:induction false} StrLessTransitive(a: string, b: string, c: string)
    requires StrLess(a, b) && StrLess(b, c)
    ensures StrLess(a, c)
  {
    if a != [] && b != [] && c != [] && a[0] == b[0] && b[0] == c[0] {
      StrLessTransitive(a[1..], b[1..], c[1..]);
    }
  }

  lemma {:induction false} StrLessTotal(a: string, b: string)
    requires a != b
    ensures StrLess(a, b) || StrLess(b, a)
  {
    if a != [] && b != [] && a[0] == b[0] {
      assert a == [a[0]] + a[1..] && b == [b[0]] + b[1..];
      StrLessTotal(a[1..], b[1..]);
    }
  }

  /** String.compareTo orders strings strictly and totally, which is what sorting needs. */
  lemma StrLessIsStrictTotalOrder()
    ensures Sorting.StrictTotalOrder(StrLess)
  {
    forall a ensures !StrLess(a, a) { StrLessIrreflexive(a); }
    forall a, b, c | StrLess(a, b) && StrLess(b, c) ensures StrLess(a, c) {
      StrLessTransitive(a, b, c);
    }
    forall a, b | a != b ensures StrLess(a, b) || StrLess(b, a) { StrLessTotal(a, b); }
  }

  predicate IntLess(a: int, b: int) { a < b }

  lemma IntLessIsStrictTotalOrder()
    ensures Sorting.StrictTotalOrder(IntLess)
  {
  }

  function DigitChar(d: int): char
    requires 0 <= d < 10
  {
    "0123456789"[d]
  }

  /** String.valueOf(int): decimal digits, with a leading '-' for negatives. */
  function IntToString(n: int): (s: string)
    ensures |s| >= 1
    ensures n >= 0 <==> s[0] != '-'
    decreases 2 * Abs(n) + (if n < 0 then 1 else 0)
  {
    if n < 0 then "-" + IntToString(-n)
    else if n < 10 then [DigitChar(n)]
    else IntToString(n / 10) + [DigitChar(n % 10)]
  }
}
