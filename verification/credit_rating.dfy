/** The credit rating (`core/CreditRatingCalculator.java`): the largest
    amount the bank will lend, from the income per family member and the
    loan terms. Money is a `real`, so there is no floating-point rounding;
    the two-decimal rounding of the source happens only in its log line. */
module CreditRating {
  import opened ApplicationModel

  /** Policy factors from the constants class, which is not part of this
      model: their values are left uninterpreted. */
  const PersonalLoanLoanRate: real
  const MortgageLoanRate: real

  function LoanTypeFactor(t: LoanType): (f: real)
    ensures t == PersonalLoan ==> f == PersonalLoanLoanRate
    ensures t == Mortgage ==> f == MortgageLoanRate
  {
    match t
    case PersonalLoan => PersonalLoanLoanRate
    case Mortgage => MortgageLoanRate
  }

  /** Yearly income per family member over the whole period, scaled by the
      loan type's factor. */
  function Rate(app: CreditApplication): (r: real)
    ensures app.person.Balance() == 0.0 ==> r == 0.0
  {
    var p := app.purposeOfLoan;
    var creditRate := app.person.IncomePerFamilyMember() * 12.0 * (p.period as real);
    creditRate * LoanTypeFactor(p.purposeOfLoanType)
  }

  /** The scale the income per family member is multiplied by. */
  function Scale(p: PurposeOfLoan): real {
    12.0 * (p.period as real) * LoanTypeFactor(p.purposeOfLoanType)
  }

  lemma RateIsShareTimesScale(app: CreditApplication)
    ensures Rate(app) == app.person.IncomePerFamilyMember() * Scale(app.purposeOfLoan)
  {
    var x := app.person.IncomePerFamilyMember();
    var p := app.purposeOfLoan.period as real;
    var f := LoanTypeFactor(app.purposeOfLoan.purposeOfLoanType);
    assert x * 12.0 * p * f == x * (12.0 * p * f);
  }

  /** Multiplied back by the number of dependants, the rating is the
      household's balance over the same span, scaled by the factor. */
  lemma RateTimesDependants(app: CreditApplication)
    ensures var p := app.purposeOfLoan;
            Rate(app) * (app.person.NumOfDependants() as real)
            == app.person.Balance() * 12.0 * (p.period as real) * LoanTypeFactor(p.purposeOfLoanType)
  {
    var x := app.person.IncomePerFamilyMember();
    var n := app.person.NumOfDependants() as real;
    var b := app.person.Balance();
    var k := Scale(app.purposeOfLoan);
    RateIsShareTimesScale(app);
    assert x * n == b;
    assert x * k * n == (x * n) * k;
    assert b * k == b * 12.0 * (app.purposeOfLoan.period as real) * LoanTypeFactor(app.purposeOfLoan.purposeOfLoanType);
  }

  /** With a non-negative period and factor, a larger income per family
      member never lowers the rating (loan type and period held fixed). */
  lemma RateMonotoneInIncome(a: CreditApplication, b: CreditApplication)
    requires a.purposeOfLoan.purposeOfLoanType == b.purposeOfLoan.purposeOfLoanType
    requires a.purposeOfLoan.period == b.purposeOfLoan.period
    requires a.purposeOfLoan.period >= 0
    requires LoanTypeFactor(a.purposeOfLoan.purposeOfLoanType) >= 0.0
    requires a.person.IncomePerFamilyMember() <= b.person.IncomePerFamilyMember()
    ensures Rate(a) <= Rate(b)
  {
    var k := Scale(a.purposeOfLoan);
    assert Scale(b.purposeOfLoan) == k;
    NonNegativeProduct(12.0 * (a.purposeOfLoan.period as real), LoanTypeFactor(a.purposeOfLoan.purposeOfLoanType));
    RateIsShareTimesScale(a);
    RateIsShareTimesScale(b);
    ScaleMonotone(a.person.IncomePerFamilyMember(), b.person.IncomePerFamilyMember(), k);
  }

  lemma NonNegativeProduct(x: real, y: real)
    requires x >= 0.0 && y >= 0.0
    ensures x * y >= 0.0
  {
  }

  lemma ScaleMonotone(x: real, y: real, k: real)
    requires x <= y && k >= 0.0
    ensures x * k <= y * k
  {
  }

  /** The two loan types differ only in their factor: for the same
      applicant and period the ratings stand in the ratio of the factors. */
  lemma RateByLoanType(app: CreditApplication)
    ensures var mortgage := app.(purposeOfLoan := app.purposeOfLoan.(purposeOfLoanType := Mortgage));
            var personal := app.(purposeOfLoan := app.purposeOfLoan.(purposeOfLoanType := PersonalLoan));
            Rate(mortgage) * PersonalLoanLoanRate == Rate(personal) * MortgageLoanRate
  {
  }

  /** The applicant enters the rating only through the income per family
      member: two applicants with equal income shares and the same loan
      terms get the same rating. */
  lemma RateDependsOnIncomeShareOnly(a: CreditApplication, b: CreditApplication)
    requires a.purposeOfLoan == b.purposeOfLoan
    requires a.person.IncomePerFamilyMember() == b.person.IncomePerFamilyMember()
    ensures Rate(a) == Rate(b)
  {
  }
}
