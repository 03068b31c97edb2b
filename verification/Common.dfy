/** Small types shared by every other module. */
module Common {

  datatype Option<+T> = None | Some(value: T)

  datatype Result<+T, +E> = Ok(value: T) | Err(error: E)

  function OrElse<T>(given: Option<T>, otherwise: T): T {
    if given.Some? then given.value else otherwise
  }

  /** Every primary key is a generated uuid; only its identity matters here. */
  type Id = nat

  /** One UTC clock, in microseconds (the resolution of a Postgres timestamp). */
  type Time = int

  const SECOND: int := 1_000_000

  /** The largest value of a Postgres `int` column. */
  const MAX_INT32: int := 0x7FFF_FFFF

  /** The range of a Go `int` on the 64-bit platforms the images are built for. */
  const MAX_INT64: int := 0x7FFF_FFFF_FFFF_FFFF
  const TWO_64: int := 0x1_0000_0000_0000_0000

  /** The value a Go `int` expression has when its exact result is `x`: two's complement wrap-around. */
  function WrapInt64(x: int): (w: int)
    ensures -MAX_INT64 - 1 <= w <= MAX_INT64
    ensures -MAX_INT64 - 1 <= x <= MAX_INT64 ==> w == x
    ensures (w - x) % TWO_64 == 0
  {
    var r := x % TWO_64;
    if r <= MAX_INT64 then r else r - TWO_64
  }

  ghost predicate Distinct<T>(s: seq<T>) {
    forall i, j :: 0 <= i < j < |s| ==> s[i] != s[j]
  }

  lemma AppendAssociates<T>(a: seq<T>, b: seq<T>, c: seq<T>)
    ensures a + (b + c) == (a + b) + c
  {
  }

  lemma TimesMonotone(a: nat, b: nat, d: nat)
    requires a <= b
    ensures a * d <= b * d
  {
  }

  /** `strconv.Itoa` and the `%d` verb. */
  function Decimal(n: int): string {
    if n < 0 then "-" + Digits(-n) else Digits(n)
  }

  function Digits(n: nat): string {
    if n < 10 then ["0123456789"[n]] else Digits(n / 10) + ["0123456789"[n % 10]]
  }

  ghost predicate AllDigits(s: string) {
    forall i :: 0 <= i < |s| ==> '0' <= s[i] <= '9'
  }

  /** The number that decimal digits stand for. */
  ghost function ValueOf(s: string): nat
    requires AllDigits(s)
  {
    if s == "" then 0 else 10 * ValueOf(s[..|s| - 1]) + (s[|s| - 1] as int - '0' as int)
  }

  /** The decimal digits of `n`, without leading zeros. */
  ghost predicate IsNatural(s: string, n: nat) {
    s != "" && AllDigits(s) && ValueOf(s) == n && (|s| > 1 ==> s[0] != '0')
  }

  ghost predicate IsDecimal(s: string, n: int) {
    if n < 0 then s != "" && s[0] == '-' && IsNatural(s[1..], -n) else IsNatural(s, n)
  }

  lemma {:induction false} DigitsExact(n: nat)
    ensures IsNatural(Digits(n), n)
    ensures n > 0 ==> Digits(n)[0] != '0'
  {
    if n >= 10 {
      DigitsExact(n / 10);
      var s := Digits(n);
      assert s[..|s| - 1] == Digits(n / 10);
      assert s[|s| - 1] == "0123456789"[n % 10];
    } else {
      assert Digits(n)[..0] == "";
    }
  }

  lemma DecimalExact(n: int)
    ensures IsDecimal(Decimal(n), n)
  {
    if n < 0 {
      DigitsExact(-n);
      assert Decimal(n)[1..] == Digits(-n);
    } else {
      DigitsExact(n);
    }
  }
}
