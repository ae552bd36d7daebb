/** The `Money` value type of the common library: a non-negative amount
    (a `double` in the source, a `real` here) whose comparisons treat amounts
    closer than one cent as equal. */
module Amounts {
  import opened Wrappers
  import opened Exceptions

  /** Comparison tolerance (Money::EPSILON). */
  const Epsilon: real := 0.01

  /** The class invariant: no Money object ever holds a negative amount. */
  type Money = r: real | 0.0 <= r

  const NegativeMoney: Exception := Invalid("Money cannot be negative", "Money")
  const InsufficientFunds: Exception := Invalid("Insufficient funds", "Money")

  /** Money(double): rejects a negative amount. */
  function NewMoney(amt: real): (r: Result<Money, Exception>)
    ensures r.Ok? <==> amt >= 0.0
    ensures r.Ok? ==> r.value == amt
    ensures r.Err? ==> r.error == NegativeMoney
  {
    if amt < 0.0 then Err(NegativeMoney) else Ok(amt)
  }

  /** setAmount: the same check as the constructor; a rejected amount leaves
      the old value, which the caller keeps on `Err`. */
  function SetAmount(m: Money, amt: real): (r: Result<Money, Exception>)
    ensures r == NewMoney(amt)
  {
    if amt < 0.0 then Err(NegativeMoney) else Ok(amt)
  }

  /** operator+: the sum of two amounts is never negative, so it never throws. */
  function Add(a: Money, b: Money): (r: Money)
    ensures r >= a && r >= b
    ensures NewMoney(a + b) == Ok(r)
  {
    a + b
  }

  /** operator-: throws "Insufficient funds" when the raw difference is negative. */
  function Sub(a: Money, b: Money): (r: Result<Money, Exception>)
    ensures r.Err? <==> a < b
    ensures r.Ok? ==> r.value + b == a
    ensures r.Err? ==> r.error == InsufficientFunds
  {
    if a - b < 0.0 then Err(InsufficientFunds) else Ok(a - b)
  }

  /** operator*(double). */
  function Mul(a: Money, factor: real): (r: Result<Money, Exception>)
    ensures r.Err? <==> factor < 0.0
    ensures r.Ok? ==> r.value == a * factor
    ensures r.Err? ==> r.error == Invalid("Multiplier cannot be negative", "Money")
  {
    if factor < 0.0 then Err(Invalid("Multiplier cannot be negative", "Money")) else Ok(a * factor)
  }

  /** operator/(double): zero is reported before negativity. */
  function Div(a: Money, divisor: real): (r: Result<Money, Exception>)
    ensures r.Err? <==> divisor <= 0.0
    ensures divisor == 0.0 ==> r == Err(Invalid("Division by zero", "Money"))
    ensures divisor < 0.0 ==> r == Err(Invalid("Divisor cannot be negative", "Money"))
    ensures r.Ok? ==> r.value * divisor == a
  {
    if divisor == 0.0 then Err(Invalid("Division by zero", "Money"))
    else if divisor < 0.0 then Err(Invalid("Divisor cannot be negative", "Money"))
    else Ok(a / divisor)
  }

  /** operator+=: adds without any check; agrees with operator+. */
  function AddAssign(a: Money, b: Money): (r: Money)
    ensures r == Add(a, b)
  {
    a + b
  }

  /** operator-=: on failure the object keeps its amount; otherwise agrees with operator-. */
  function SubAssign(a: Money, b: Money): (r: Result<Money, Exception>)
    ensures r == Sub(a, b)
  {
    var newAmount := a - b;
    if newAmount < 0.0 then Err(InsufficientFunds) else Ok(newAmount)
  }

  predicate Eq(a: Money, b: Money) {
    (if a - b < 0.0 then b - a else a - b) < Epsilon
  }

  predicate Lt(a: Money, b: Money) {
    a < b - Epsilon
  }

  predicate Gt(a: Money, b: Money) {
    a > b + Epsilon
  }

  predicate Ge(a: Money, b: Money) {
    !Lt(a, b)
  }

  predicate Le(a: Money, b: Money) {
    !Gt(a, b)
  }

  predicate Ne(a: Money, b: Money) {
    !Eq(a, b)
  }

  /** Subtraction undoes addition. */
  lemma SubAfterAdd(a: Money, b: Money)
    ensures Sub(Add(a, b), b) == Ok(a)
  {
  }

  /** Dividing by a positive factor undoes multiplying by it. */
  lemma DivAfterMul(a: Money, f: real)
    requires f > 0.0
    ensures Mul(a, f).Ok? && Div(Mul(a, f).value, f) == Ok(a)
  {
  }

  /** At most one of <, == and > holds for any pair. */
  lemma ComparisonsExclusive(a: Money, b: Money)
    ensures !(Lt(a, b) && Eq(a, b))
    ensures !(Gt(a, b) && Eq(a, b))
    ensures !(Lt(a, b) && Gt(a, b))
  {
  }

  /** ... but the three are not exhaustive: at a distance of exactly one cent none holds. */
  lemma ComparisonsNotExhaustive(a: Money, b: Money)
    requires b == a + Epsilon || a == b + Epsilon
    ensures !Lt(a, b) && !Eq(a, b) && !Gt(a, b)
  {
  }

  /** The derived comparisons in closed form. */
  lemma DerivedComparisons(a: Money, b: Money)
    ensures Ge(a, b) <==> a >= b - Epsilon
    ensures Le(a, b) <==> a <= b + Epsilon
    ensures Ne(a, b) <==> (a - b >= Epsilon || b - a >= Epsilon)
    ensures Ge(a, b) && Le(a, b) <==> (Eq(a, b) || a - b == Epsilon || b - a == Epsilon)
  {
  }

  /** Tolerant equality is reflexive and symmetric, and `<` is transitive ... */
  lemma EqualityReflexiveSymmetric(a: Money, b: Money, c: Money)
    ensures Eq(a, a)
    ensures Eq(a, b) ==> Eq(b, a)
    ensures Lt(a, b) && Lt(b, c) ==> Lt(a, c)
  {
  }

  /** ... but tolerant equality is not transitive. */
  lemma EqualityNotTransitive()
    ensures Eq(0.0, 0.006) && Eq(0.006, 0.012) && !Eq(0.0, 0.012)
  {
  }
}
