/**
 * The functions and methods of go-functions-methods/main.go: integer
 * addition and truncated division on Go's 64-bit `int`, and a Person whose
 * value-receiver method works on a copy while its pointer-receiver method
 * updates the caller's variable.
 */
module FunctionsMethods {

  // ----------------------------------------------------------------------
  // Go's int, taken as 64 bits wide
  // ----------------------------------------------------------------------

  const MinInt: int := -0x8000_0000_0000_0000
  const MaxInt: int := 0x7fff_ffff_ffff_ffff
  const Modulus: int := 0x1_0000_0000_0000_0000

  type GoInt = x: int | MinInt <= x <= MaxInt

  function Abs(x: int): nat {
    if x < 0 then -x else x
  }

  /** Two's-complement wrap-around of a mathematical integer into a GoInt. */
  function Wrap(x: int): (r: GoInt)
    ensures (x - r) % Modulus == 0
    ensures MinInt <= x <= MaxInt ==> r == x
  {
    var k := (x - MinInt) / Modulus;
    var r := (x - MinInt) % Modulus + MinInt;
    assert x - r == k * Modulus;
    r
  }

  // ----------------------------------------------------------------------
  // add
  // ----------------------------------------------------------------------

  /**
   * Addition: the mathematical sum when it fits, otherwise the sum wrapped
   * by 2^64 (a positive overflow comes out negative and vice versa).
   */
  function Add(a: GoInt, b: GoInt): (sum: GoInt)
    ensures MinInt <= a + b <= MaxInt ==> sum == a + b
    ensures a + b > MaxInt ==> sum == a + b - Modulus && sum < 0
    ensures a + b < MinInt ==> sum == a + b + Modulus && sum >= 0
  {
    Wrap(a + b)
  }

  // ----------------------------------------------------------------------
  // divideAndRemainder
  // ----------------------------------------------------------------------

  /** Go's `/`: the quotient rounded toward zero. */
  function TruncQuot(a: int, b: int): int
    requires b != 0
  {
    var q := Abs(a) / Abs(b);
    if (a < 0) == (b < 0) then q else -q
  }

  /** Go's `%`: the remainder takes the sign of the dividend. */
  function TruncRem(a: int, b: int): int
    requires b != 0
  {
    var r := Abs(a) % Abs(b);
    if a < 0 then -r else r
  }

  /**
   * The defining properties of truncated division: quotient times divisor
   * plus remainder gives the dividend, the remainder is smaller than the
   * divisor in magnitude and is zero or has the dividend's sign, and the
   * quotient is no larger than the dividend in magnitude.
   */
  lemma TruncDivision(a: int, b: int)
    requires b != 0
    ensures TruncQuot(a, b) * b + TruncRem(a, b) == a
    ensures Abs(TruncRem(a, b)) < Abs(b)
    ensures TruncRem(a, b) == 0 || (TruncRem(a, b) < 0 <==> a < 0)
    ensures Abs(TruncQuot(a, b)) <= Abs(a)
  {
    var n, d := Abs(a), Abs(b);
    SignedDivision(a, b, n / d, n % d);
  }

  /** The four sign cases, given the division of the magnitudes. */
  lemma SignedDivision(a: int, b: int, q0: int, r0: int)
    requires b != 0
    requires Abs(a) == q0 * Abs(b) + r0 && 0 <= r0 < Abs(b) && 0 <= q0
    ensures var q: int := if (a < 0) == (b < 0) then q0 else -q0;
      var r: int := if a < 0 then -r0 else r0;
      q * b + r == a && Abs(r) < Abs(b) && (r == 0 || (r < 0 <==> a < 0)) && Abs(q) <= Abs(a)
  {
    AtMostProduct(q0, Abs(b));
  }

  lemma AtMostProduct(x: nat, y: int)
    requires y >= 1
    ensures x <= x * y
  {
    assert x * y == x + x * (y - 1);
  }

  /** A non-zero multiple of b is at least as large as b in magnitude. */
  lemma MultipleAtLeastDivisor(k: int, b: int)
    requires k != 0
    ensures Abs(k * b) >= Abs(b)
  {
    var x, y := Abs(k), Abs(b);
    assert Abs(k * b) == x * y;
    if y > 0 {
      AtMostProduct(y, x);
      assert y * x == x * y;
    }
  }

  /**
   * Those properties determine the result: any quotient and remainder that
   * have them are Go's.
   */
  lemma TruncDivisionUnique(a: int, b: int, q: int, r: int)
    requires b != 0
    requires q * b + r == a
    requires Abs(r) < Abs(b)
    requires r == 0 || (r < 0 <==> a < 0)
    ensures q == TruncQuot(a, b) && r == TruncRem(a, b)
  {
    TruncDivision(a, b);
    var q', r' := TruncQuot(a, b), TruncRem(a, b);
    assert (q - q') * b == r' - r;
    assert Abs(r' - r) < Abs(b);
    if q != q' {
      MultipleAtLeastDivisor(q - q', b);
      assert false;
    }
  }

  /** On a non-negative dividend and a positive divisor, Go and Dafny agree. */
  lemma TruncMatchesEuclideanOnNaturals(a: int, b: int)
    requires a >= 0 && b > 0
    ensures TruncQuot(a, b) == a / b && TruncRem(a, b) == a % b
  {
  }

  /**
   * divideAndRemainder: Go's `/` and `%` on int. The divisor must be non-zero
   * (Go panics otherwise). MinInt / -1 overflows and wraps back to MinInt,
   * with remainder 0; every other pair gives the exact truncated division.
   */
  function DivideAndRemainder(a: GoInt, b: GoInt): (qr: (GoInt, GoInt))
    requires b != 0
    ensures !(a == MinInt && b == -1) ==> qr.0 * b + qr.1 == a
    ensures a == MinInt && b == -1 ==> qr == (MinInt, 0)
    ensures Abs(qr.1) < Abs(b)
    ensures qr.1 == 0 || (qr.1 < 0 <==> a < 0)
  {
    TruncDivision(a, b);
    (Wrap(TruncQuot(a, b)), TruncRem(a, b))
  }

  /** The values main computes: add(10, 20) and divideAndRemainder(17, 5); and a negative case. */
  lemma MainArithmetic()
    ensures Add(10, 20) == 30
    ensures DivideAndRemainder(17, 5) == (3, 2)
    ensures DivideAndRemainder(-17, 5) == (-3, -2) && -17 / 5 == -4 && -17 % 5 == 3
  {
  }

  // ----------------------------------------------------------------------
  // Person with a value receiver and a pointer receiver
  // ----------------------------------------------------------------------

  /** A snapshot of a Person's fields, as a value receiver sees it. */
  datatype PersonValue = PersonValue(name: string, age: GoInt)

  /** An addressable Person variable, which a pointer receiver updates. */
  class Person {
    var name: string
    var age: GoInt

    constructor (name: string, age: GoInt)
      ensures this.name == name && this.age == age
    {
      this.name := name;
      this.age := age;
    }

    function Value(): (v: PersonValue)
      reads this
      ensures v.name == name && v.age == age
    {
      PersonValue(name, age)
    }

    /**
     * Value receiver: the method gets a copy, sets the copy's age to 123 and
     * shows it. It returns what it shows; having no modifies clause, it
     * leaves the caller's Person as it was.
     */
    method Info() returns (shown: PersonValue)
      ensures shown.name == name && shown.age == 123
    {
      var p := Value();
      p := p.(age := 123);
      shown := p;
    }

    /** Pointer receiver: the caller's age goes up by one; the name stays. */
    method HaveBirthday()
      modifies this
      ensures age == Add(old(age), 1)
      ensures old(age) < MaxInt ==> age == old(age) + 1
      ensures name == old(name)
    {
      age := Add(age, 1);
    }
  }

  /**
   * The Person part of main: Info leaves Alice at 29 although it showed
   * 123; two birthdays, one through an explicit pointer, bring her to 31.
   */
  method PersonDemo() returns (shown: PersonValue, afterInfo: PersonValue, afterBirthdays: PersonValue)
    ensures shown == PersonValue("Alice", 123)
    ensures afterInfo == PersonValue("Alice", 29)
    ensures afterBirthdays == PersonValue("Alice", 31)
  {
    var person := new Person("Alice", 29);
    shown := person.Info();
    afterInfo := person.Value();
    person.HaveBirthday();
    var personPtr := person;
    personPtr.HaveBirthday();
    afterBirthdays := person.Value();
  }
}
