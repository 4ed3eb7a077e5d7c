/**
 * The dashboard's interaction state: which tab is open and which loan the
 * details panel shows. Row clicks select a loan and jump to the loans
 * tab; the navigation buttons switch tabs and leave the selection alone.
 */
module Dashboard {

  import opened LoanData
  import opened Metrics
  import opened Wrappers

  /** The navigation tabs "overview", "loans" and "offers". */
  datatype Tab = Overview | Loans | Offers

  class App {

    /** The portfolio every view of the dashboard is computed from. */
    const loans: seq<Loan>

    var activeTab: Tab
    var selectedLoan: Option<Loan>

    /** Whatever is selected is one of the portfolio's loans. */
    ghost predicate Valid()
      reads this
    {
      selectedLoan.Some? ==> selectedLoan.value in loans
    }

    /** The dashboard opens on the overview with the first loan selected
        (nothing, for an empty portfolio). */
    constructor (loans: seq<Loan>)
      ensures this.loans == loans
      ensures activeTab == Overview
      ensures selectedLoan == if loans == [] then None else Some(loans[0])
      ensures Valid()
    {
      this.loans := loans;
      activeTab := Overview;
      selectedLoan := if loans == [] then None else Some(loans[0]);
    }

    /** Clicking a loan row selects the loan and opens the loans tab. */
    method SelectLoan(loan: Loan)
      modifies this
      ensures selectedLoan == Some(loan)
      ensures activeTab == Loans
      ensures Valid() <==> loan in loans
    {
      selectedLoan := Some(loan);
      activeTab := Loans;
    }

    /** A navigation button opens its tab and changes nothing else. */
    method Navigate(tab: Tab)
      modifies this
      ensures activeTab == tab
      ensures forall t :: IsActive(t) <==> t == tab
      ensures selectedLoan == old(selectedLoan)
      ensures old(Valid()) ==> Valid()
    {
      activeTab := tab;
    }

    /** Which navigation button is highlighted. */
    predicate IsActive(tab: Tab)
      reads this
    {
      activeTab == tab
    }

    /** The details panel for the current selection; defined whenever every
        loan of the portfolio has a positive remaining term. */
    function Details(): (v: DetailsView)
      reads this
      requires Valid()
      requires forall l :: l in loans ==> l.monthsRemaining > 0
      ensures v.Placeholder? <==> selectedLoan.None?
      ensures v.LoanDetails? ==> selectedLoan == Some(v.loan) && v.loan in loans
    {
      DetailsPanel(selectedLoan)
    }
  }

  /** The navigation bar always highlights exactly one button: the one of
      the open tab. */
  lemma ExactlyOneTabActive(app: App)
    ensures exists t :: app.IsActive(t)
    ensures forall t, u :: app.IsActive(t) && app.IsActive(u) ==> t == u
  {
    assert app.IsActive(app.activeTab);
  }
}
