/** The mortgage payment of the rental analysis (internal/service/comps/rental.go), for a whole number of
    payments, over exact reals. */
module Mortgage {
  import opened Reals

  function Power(x: real, n: nat): real {
    if n == 0 then 1.0 else Power(x, n - 1) * x
  }

  function PaymentFor(loan: real, rate: real, factor: real): real
    requires factor > 1.0
  {
    loan * (rate * factor) / (factor - 1.0)
  }

  /** The level payment, or 0 without interest or payments. */
  function Payment(loan: real, rate: real, n: nat): real
    requires rate > 0.0 && n > 0 ==> Power(1.0 + rate, n) > 1.0
  {
    if rate > 0.0 && n > 0 then PaymentFor(loan, rate, Power(1.0 + rate, n)) else 0.0
  }

  /** What is owed after k payments: interest accrues and a payment is made each month. */
  function Balance(loan: real, rate: real, payment: real, k: nat): real {
    if k == 0 then loan else Balance(loan, rate, payment, k - 1) * (1.0 + rate) - payment
  }

  lemma {:induction false} PowerGrows(rate: real, k: nat, n: nat)
    requires rate > 0.0 && k < n
    ensures 1.0 <= Power(1.0 + rate, k) < Power(1.0 + rate, n)
  {
    var x := 1.0 + rate;
    if k < n - 1 {
      PowerGrows(rate, k, n - 1);
    } else if k > 0 {
      PowerGrows(rate, 0, k);
    }
    var p := Power(x, n - 1);
    assert p >= 1.0;
    ProductSign(rate, p);
    assert p * x == p + rate * p;
  }

  /** The balance in closed form, without a quotient: rate * B(k) = rate * loan * x^k - payment * (x^k - 1). */
  lemma {:induction false} BalanceForm(loan: real, rate: real, payment: real, k: nat)
    ensures rate * Balance(loan, rate, payment, k) ==
      rate * loan * Power(1.0 + rate, k) - payment * (Power(1.0 + rate, k) - 1.0)
  {
    if k == 0 {
      BalanceBase(loan, rate, payment, Power(1.0 + rate, 0));
    } else {
      BalanceForm(loan, rate, payment, k - 1);
      BalanceStep(loan, rate, payment, Power(1.0 + rate, k - 1), Balance(loan, rate, payment, k - 1));
    }
  }

  lemma BalanceBase(loan: real, rate: real, payment: real, one: real)
    requires one == 1.0
    ensures rate * loan == rate * loan * one - payment * (one - 1.0)
  {
  }

  lemma BalanceStep(loan: real, rate: real, payment: real, p: real, b: real)
    requires rate * b == rate * loan * p - payment * (p - 1.0)
    ensures rate * (b * (1.0 + rate) - payment) == rate * loan * (p * (1.0 + rate)) - payment * (p * (1.0 + rate) - 1.0)
  {
    var x := 1.0 + rate;
    assert rate * (b * x - payment) == (rate * b) * x - rate * payment;
    assert (rate * loan * p - payment * (p - 1.0)) * x == rate * loan * (p * x) - payment * (p * x) + payment * x;
    assert payment * x == payment + rate * payment;
  }

  /** The balance times (factor - 1) is loan times what the power still has to grow. */
  lemma PaidShare(loan: real, rate: real, n: nat, k: nat)
    requires rate > 0.0 && n > 0 && Power(1.0 + rate, n) > 1.0
    ensures Balance(loan, rate, Payment(loan, rate, n), k) * (Power(1.0 + rate, n) - 1.0) ==
            loan * (Power(1.0 + rate, n) - Power(1.0 + rate, k))
  {
    hide Balance, Power;
    var f, p, m := Power(1.0 + rate, n), Power(1.0 + rate, k), Payment(loan, rate, n);
    var b := Balance(loan, rate, m, k);
    BalanceForm(loan, rate, m, k);
    PaidShareArithmetic(loan, rate, f, p, m, b);
  }

  lemma PaidShareArithmetic(loan: real, rate: real, f: real, p: real, m: real, b: real)
    requires rate > 0.0 && f > 1.0 && m == PaymentFor(loan, rate, f)
    requires rate * b == rate * loan * p - m * (p - 1.0)
    ensures b * (f - 1.0) == loan * (f - p)
  {
    var g := f - 1.0;
    assert m * g == loan * (rate * f);
    var left, right := b * g, loan * (f - p);
    assert rate * left == (rate * b) * g;
    assert (rate * loan * p - m * (p - 1.0)) * g == rate * loan * p * g - (m * g) * (p - 1.0);
    assert rate * loan * p * (f - 1.0) - loan * (rate * f) * (p - 1.0) == rate * (loan * (f - p));
    assert rate * (left - right) == 0.0;
    ProductSign(left - right, rate);
    assert (left - right) * rate == rate * (left - right);
  }

  /** The payment amortises the loan: the balance is positive until the last payment and then exactly 0. */
  lemma PaymentAmortises(loan: real, rate: real, n: nat, k: nat)
    requires loan > 0.0 && rate > 0.0 && n > 0 && k <= n
    ensures Power(1.0 + rate, n) > 1.0
    ensures var b := Balance(loan, rate, Payment(loan, rate, n), k); if k == n then b == 0.0 else b > 0.0
  {
    hide Balance, Power, Payment;
    PowerGrows(rate, 0, n);
    PaidShare(loan, rate, n, k);
    if k < n { PowerGrows(rate, k, n); }
    SignOfFactor(Balance(loan, rate, Payment(loan, rate, n), k), Power(1.0 + rate, n) - 1.0,
      loan, Power(1.0 + rate, n) - Power(1.0 + rate, k));
  }

  lemma SignOfFactor(b: real, g: real, loan: real, rest: real)
    requires g > 0.0 && loan > 0.0 && b * g == loan * rest
    ensures rest > 0.0 ==> b > 0.0
    ensures rest == 0.0 ==> b == 0.0
  {
    ProductSign(b, g);
    ProductSign(rest, loan);
    assert rest * loan == loan * rest;
  }

  /** The mortgage part of runRentHold; payments is the term in months, a whole number. */
  method MonthlyMortgage(purchase: real, downPct: real, yearlyRate: real, payments: int)
    returns (loan: real, rate: real, mortgage: real)
    ensures loan == purchase * (1.0 - downPct / 100.0) && rate == yearlyRate / 100.0 / 12.0
    ensures loan > 0.0 && rate > 0.0 && payments > 0 ==> forall k: nat :: k <= payments ==>
      (Balance(loan, rate, mortgage, k) == 0.0 <==> k == payments) && Balance(loan, rate, mortgage, k) >= 0.0
    ensures rate <= 0.0 || payments <= 0 ==> mortgage == 0.0
  {
    hide Balance, Power;
    loan, rate := purchase * (1.0 - downPct / 100.0), yearlyRate / 100.0 / 12.0;
    mortgage := 0.0;
    if rate > 0.0 && payments > 0 {
      PowerGrows(rate, 0, payments);
      var factor := Power(1.0 + rate, payments);
      mortgage := PaymentFor(loan, rate, factor);
      if loan > 0.0 {
        forall k: nat | k <= payments
          ensures (Balance(loan, rate, mortgage, k) == 0.0 <==> k == payments)
          ensures Balance(loan, rate, mortgage, k) >= 0.0
        {
          PaymentAmortises(loan, rate, payments, k);
        }
      }
    }
  }
}
