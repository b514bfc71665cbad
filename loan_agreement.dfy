/** The immutable loan agreement (`builder.LoanAgreement`) and the payments
    derived from it. Amounts, rates and payments are exact reals, standing
    for Java doubles; `Math.pow` is exact repeated multiplication. */
module LoanAgreements {
  import opened Ints
  import opened Exceptions
  import Model

  /** A calendar date (`java.time.LocalDate`): year, month 1-12, day 1-31. */
  datatype Date = Date(year: int, month: int, day: int)

  /** An agreement: the eight values copied from the builder. Every field is
      final, and each getter returns its field. */
  datatype LoanAgreement = LoanAgreement(
    client: Model.Client,
    amount: real,
    interestRate: real,
    termMonths: Int32,
    agreementNumber: string,
    startDate: Date,
    purpose: string,
    insuranceRequired: bool)

  /** What `build` guarantees of every agreement it produces: a positive
      amount, a non-negative annual rate, a positive term.
      The class's only constructor is the one `build` calls. */
  predicate WellFormed(agreement: LoanAgreement) {
    && agreement.amount > 0.0
    && agreement.interestRate >= 0.0
    && agreement.termMonths > 0
  }

  /** The monthly rate: `interestRate / 100 / 12`. */
  function MonthlyRate(agreement: LoanAgreement): real {
    agreement.interestRate / 100.0 / 12.0
  }

  /** `Math.pow(x, n)` for a natural exponent, computed exactly. */
  function Pow(x: real, n: nat): real {
    if n == 0 then 1.0 else x * Pow(x, n - 1)
  }

  lemma {:induction false} PowAtLeastOne(x: real, n: nat)
    requires x >= 1.0
    ensures Pow(x, n) >= 1.0
    ensures x > 1.0 && n > 0 ==> Pow(x, n) > 1.0
    ensures x == 1.0 ==> Pow(x, n) == 1.0
  {
    if n > 0 {
      PowAtLeastOne(x, n - 1);
      assert Pow(x, n) == x * Pow(x, n - 1);
      assert x * Pow(x, n - 1) >= Pow(x, n - 1);
    }
  }

  /** `calculateMonthlyPayment()`: P * r * (1+r)^n / ((1+r)^n - 1). At rate 0
      the Java expression is 0/0, which is NaN; `None` stands for NaN. */
  function MonthlyPayment(agreement: LoanAgreement): (payment: Option<real>)
    requires WellFormed(agreement)
    ensures payment == None <==> agreement.interestRate == 0.0
    ensures payment != None ==> payment.value > 0.0
  {
    var r := MonthlyRate(agreement);
    var growth := Pow(1.0 + r, agreement.termMonths as nat);
    PowAtLeastOne(1.0 + r, agreement.termMonths as nat);
    if growth - 1.0 == 0.0 then None
    else Some(agreement.amount * (r * growth) / (growth - 1.0))
  }

  /** `calculateTotalPayment()`: the monthly payment times the term (NaN stays
      NaN). */
  function TotalPayment(agreement: LoanAgreement): (total: Option<real>)
    requires WellFormed(agreement)
    ensures total == None <==> agreement.interestRate == 0.0
  {
    match MonthlyPayment(agreement)
    case None => None
    case Some(payment) => Some(payment * agreement.termMonths as real)
  }

  /** The total interest the agreement shows: total payment less the amount. */
  function TotalInterest(agreement: LoanAgreement): (interest: Option<real>)
    requires WellFormed(agreement)
    ensures interest == None <==> agreement.interestRate == 0.0
  {
    match TotalPayment(agreement)
    case None => None
    case Some(total) => Some(total - agreement.amount)
  }

  /** The years the agreement shows: `termMonths / 12`, Java integer division
      (the term is positive, so truncation and Dafny's division agree). */
  function YearsShown(agreement: LoanAgreement): (years: int)
    requires WellFormed(agreement)
    ensures 0 <= years && years * 12 <= agreement.termMonths as int < (years + 1) * 12
  {
    agreement.termMonths as int / 12
  }

  /** The independent reading of a monthly payment: what is still owed after
      `k` months when the balance grows by the monthly rate and one payment
      is made each month. */
  function Outstanding(principal: real, r: real, payment: real, k: nat): real {
    if k == 0 then principal else Outstanding(principal, r, payment, k - 1) * (1.0 + r) - payment
  }

  /** The closed form of the amortization schedule. */
  lemma {:induction false} OutstandingClosedForm(principal: real, r: real, payment: real, k: nat)
    ensures Outstanding(principal, r, payment, k) * r
         == principal * r * Pow(1.0 + r, k) - payment * (Pow(1.0 + r, k) - 1.0)
  {
    if k > 0 {
      OutstandingClosedForm(principal, r, payment, k - 1);
      ClosedFormStep(principal, r, payment, k);
    }
  }

  /** One month of the schedule: the closed form after k - 1 months gives
      the closed form after k. */
  lemma ClosedFormStep(principal: real, r: real, payment: real, k: nat)
    requires k > 0
    requires Outstanding(principal, r, payment, k - 1) * r
          == principal * r * Pow(1.0 + r, k - 1) - payment * (Pow(1.0 + r, k - 1) - 1.0)
    ensures Outstanding(principal, r, payment, k) * r
         == principal * r * Pow(1.0 + r, k) - payment * (Pow(1.0 + r, k) - 1.0)
  {
    var b := Outstanding(principal, r, payment, k - 1);
    var p := Pow(1.0 + r, k - 1);
    var o := Outstanding(principal, r, payment, k);
    var g := Pow(1.0 + r, k);
    assert o == b * (1.0 + r) - payment;
    assert g == (1.0 + r) * p;
    ClosedFormAlgebra(b, principal, r, payment, p, o, g);
  }

  /** The algebra of one month: if b * r = P * r * p - M * (p - 1),
      o = b * (1+r) - M and g = (1+r) * p, then o * r = P * r * g - M * (g - 1). */
  lemma ClosedFormAlgebra(b: real, principal: real, r: real, payment: real, p: real, o: real, g: real)
    requires b * r == principal * r * p - payment * (p - 1.0)
    requires o == b * (1.0 + r) - payment && g == (1.0 + r) * p
    ensures o * r == principal * r * g - payment * (g - 1.0)
  {
    var q := 1.0 + r;
    var x := b * r;
    assert o * r == x * q - payment * r;
    assert x * q == (principal * r) * g - (payment * (p - 1.0)) * q;
    assert (payment * (p - 1.0)) * q + payment * r == payment * (g - 1.0);
  }

  /** The monthly payment repays the loan exactly: after `termMonths`
      payments nothing is owed. */
  lemma PaymentRepaysLoan(agreement: LoanAgreement)
    requires WellFormed(agreement) && agreement.interestRate > 0.0
    ensures Outstanding(agreement.amount, MonthlyRate(agreement), MonthlyPayment(agreement).value, agreement.termMonths as nat) == 0.0
  {
    var r := MonthlyRate(agreement);
    var n := agreement.termMonths as nat;
    var growth := Pow(1.0 + r, n);
    PowAtLeastOne(1.0 + r, n);
    var m := MonthlyPayment(agreement).value;
    assert m == agreement.amount * (r * growth) / (growth - 1.0);
    assert m * (growth - 1.0) == agreement.amount * r * growth;
    OutstandingClosedForm(agreement.amount, r, m, n);
    var owed := Outstanding(agreement.amount, r, m, n);
    assert owed * r == 0.0;
  }

  /** (1+r)^n - 1 <= n * r * (1+r)^n for r > 0. */
  lemma {:induction false} GrowthBound(r: real, n: nat)
    requires r > 0.0
    ensures Pow(1.0 + r, n) - 1.0 <= n as real * r * Pow(1.0 + r, n)
  {
    if n > 0 {
      GrowthBound(r, n - 1);
      var q := 1.0 + r;
      var p := Pow(q, n - 1);
      PowAtLeastOne(q, n - 1);
      assert p - 1.0 <= (n - 1) as real * r * p;
      assert q * (p - 1.0) <= q * ((n - 1) as real * r * p);
      assert r <= r * (q * p) by {
        assert q * p >= 1.0;
      }
      calc {
        Pow(q, n) - 1.0;
        q * p - 1.0;
        q * (p - 1.0) + r;
        <= q * ((n - 1) as real * r * p) + r;
        <= (n - 1) as real * r * (q * p) + r * (q * p);
        n as real * r * (q * p);
        n as real * r * Pow(q, n);
      }
    }
  }

  /** Over the whole term the borrower pays back at least the amount
      borrowed: the total interest shown is never negative. */
  lemma TotalCoversAmount(agreement: LoanAgreement)
    requires WellFormed(agreement) && agreement.interestRate > 0.0
    ensures TotalPayment(agreement).value >= agreement.amount
    ensures TotalInterest(agreement).value >= 0.0
  {
    var r := MonthlyRate(agreement);
    var n := agreement.termMonths as nat;
    var growth := Pow(1.0 + r, n);
    PowAtLeastOne(1.0 + r, n);
    GrowthBound(r, n);
    var m := MonthlyPayment(agreement).value;
    assert m == agreement.amount * (r * growth) / (growth - 1.0);
    RepaidAtLeast(m, agreement.amount, n as real, r, growth);
  }

  /** The algebra behind `TotalCoversAmount`: a payment m with
      m * (g - 1) = p * r * g, made n times, covers p when g - 1 <= n * r * g. */
  lemma RepaidAtLeast(m: real, p: real, n: real, r: real, g: real)
    requires g > 1.0 && p > 0.0
    requires m == p * (r * g) / (g - 1.0)
    requires g - 1.0 <= n * r * g
    ensures m * n >= p
  {
    var d := g - 1.0;
    assert m * d == p * (r * g);
    var t := m * n;
    assert t * d == n * (m * d);
    var margin := n * r * g - d;
    assert margin >= 0.0;
    assert t * d - p * d == p * margin;
    assert p * margin >= 0.0;
    assert (t - p) * d >= 0.0;
    if t < p {
      assert (t - p) * d < 0.0;
    }
  }
}
