/**
 * The loan record of the dashboard and the fixed four-loan demo dataset
 * that every view of the dashboard is computed from.
 */
module LoanData {

  /** The four loan types. In the dashboard they carry the Swedish labels
      "Bolån" (mortgage), "Privatlån" (personal loan), "Billån" (car loan)
      and "Kreditkort" (credit card). */
  datatype Category = Bolan | Privatlan | Billan | Kreditkort

  /** One loan as the aggregator lists it. Amounts are in SEK;
      `interestRate` is an annual percentage (3.79 means 3.79 %). */
  datatype Loan = Loan(
    id: string,
    lender: string,
    category: Category,
    productName: string,
    principalRemaining: real,
    interestRate: real,
    monthlyPayment: real,
    monthsRemaining: int,
    accountNumberMasked: string)

  /** The compiled-in demo portfolio: one loan of each category. */
  const MockLoans: seq<Loan> := [
    Loan("1", "Handelsbanken", Bolan, "Bolån villa",
         2150000.0, 3.79, 9850.0, 300, "**** 1234"),
    Loan("2", "SBAB", Privatlan, "Privatlån renovering",
         185000.0, 7.95, 2450.0, 72, "**** 9912"),
    Loan("3", "Volvofinans", Billan, "Billån XC60",
         145000.0, 4.95, 2150.0, 48, "**** 4410"),
    Loan("4", "Collector Bank", Kreditkort, "Kreditkort Flex",
         32500.0, 19.9, 1200.0, 36, "**** 8765")
  ]

  /** The demo portfolio has four loans with the distinct ids "1" to "4",
      one loan per category, in the order mortgage, personal, car, card. */
  lemma MockLoansShape()
    ensures |MockLoans| == 4
    ensures MockLoans[0].id == "1" && MockLoans[1].id == "2"
    ensures MockLoans[2].id == "3" && MockLoans[3].id == "4"
    ensures forall i, j :: 0 <= i < j < |MockLoans| ==> MockLoans[i].id != MockLoans[j].id
    ensures MockLoans[0].category == Bolan && MockLoans[1].category == Privatlan
    ensures MockLoans[2].category == Billan && MockLoans[3].category == Kreditkort
  {
  }

  /** Every demo loan has a positive remaining term (300, 72, 48 and 36
      months), so the per-month split of the details panel is defined for
      every loan that can be selected. */
  lemma MockTermsPositive()
    ensures forall l :: l in MockLoans ==> l.monthsRemaining > 0
    ensures forall l :: l in MockLoans ==> l.principalRemaining >= 0.0 && l.monthlyPayment >= 0.0
  {
  }
}
