/** A credit application: the applicant and the purpose of the loan. The
    application classes are not part of this model; their fields are taken
    from how the rating calculator and the service tests use them. */
module ApplicationModel {
  import opened PersonModel

  datatype LoanType = PersonalLoan | Mortgage

  /** Period in months, requested amount in money units. */
  datatype PurposeOfLoan = PurposeOfLoan(purposeOfLoanType: LoanType, period: int, amount: real)

  datatype CreditApplication = CreditApplication(person: Person, purposeOfLoan: PurposeOfLoan)
}
