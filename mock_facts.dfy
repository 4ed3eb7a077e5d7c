/**
 * The figures the dashboard shows for its demo portfolio, derived from
 * the model.
 */
module MockFacts {

  import opened LoanData
  import opened Rounding
  import opened Metrics
  import opened Wrappers
  import opened Dashboard

  /** A sum over four loans, written out. */
  lemma Sum4(a: Loan, b: Loan, c: Loan, d: Loan, m: Measure)
    ensures Sum([a, b, c, d], m) == Value(a, m) + Value(b, m) + Value(c, m) + Value(d, m)
  {
    assert [a, b, c, d] == [a, b, c] + [d];
    assert [a, b, c] == [a, b] + [c];
    assert [a, b] == [a] + [b];
    assert [a] == [] + [a];
    SumSnoc([], a, m);
    SumSnoc([a], b, m);
    SumSnoc([a, b], c, m);
    SumSnoc([a, b, c], d, m);
  }

  lemma SumSingle(x: Loan, m: Measure)
    ensures Sum([x], m) == Value(x, m)
  {
    SumSnoc([], x, m);
    assert [] + [x] == [x];
  }

  function Keep(l: Loan, c: Criterion): (r: seq<Loan>)
  {
    if Matches(l, c) then [l] else []
  }

  lemma FilterSnocKeep(s: seq<Loan>, x: Loan, k: Criterion)
    ensures Filter(s + [x], k) == Filter(s, k) + Keep(x, k)
  {
    FilterSnoc(s, x, k);
    if !Matches(x, k) {
      assert Filter(s, k) + [] == Filter(s, k);
    }
  }

  /** A filter over four loans, written out. */
  lemma Filter4(a: Loan, b: Loan, c: Loan, d: Loan, k: Criterion)
    ensures Filter([a, b, c, d], k) == Keep(a, k) + Keep(b, k) + Keep(c, k) + Keep(d, k)
  {
    var ka, kb, kc, kd := Keep(a, k), Keep(b, k), Keep(c, k), Keep(d, k);
    assert Filter([a], k) == ka by {
      assert [] + [a] == [a];
      FilterSnocKeep([], a, k);
      assert [] + ka == ka;
    }
    assert Filter([a, b], k) == ka + kb by {
      assert [a] + [b] == [a, b];
      FilterSnocKeep([a], b, k);
    }
    assert Filter([a, b, c], k) == ka + kb + kc by {
      assert [a, b] + [c] == [a, b, c];
      FilterSnocKeep([a, b], c, k);
    }
    assert [a, b, c] + [d] == [a, b, c, d];
    FilterSnocKeep([a, b, c], d, k);
  }

  lemma MockSum(m: Measure)
    ensures Sum(MockLoans, m) == Value(MockLoans[0], m) + Value(MockLoans[1], m)
                                 + Value(MockLoans[2], m) + Value(MockLoans[3], m)
  {
    Sum4(MockLoans[0], MockLoans[1], MockLoans[2], MockLoans[3], m);
  }

  lemma MockFilter(k: Criterion)
    ensures Filter(MockLoans, k) == Keep(MockLoans[0], k) + Keep(MockLoans[1], k)
                                    + Keep(MockLoans[2], k) + Keep(MockLoans[3], k)
  {
    Filter4(MockLoans[0], MockLoans[1], MockLoans[2], MockLoans[3], k);
  }

  /** Total principal 2,512,500, total monthly 9,850 + 2,450 + 2,150 +
      1,200 = 15,650, and a weighted rate sum of 10,983,750. */
  lemma MockTotals()
    ensures ComputeTotals(MockLoans) == Totals(2512500.0, 15650.0, 10983750.0 / 2512500.0)
    ensures 4.3716 < ComputeTotals(MockLoans).avgRate < 4.3717
  {
    MockSum(Principal);
    MockSum(Monthly);
    MockSum(WeightedRate);
  }

  /** Only the credit card (19.9 %) is above 10 %: 80 - 25 / 4 = 73.75 rounds to 74. */
  lemma MockHealthScore()
    ensures HighRateCount(MockLoans) == 1
    ensures HealthScore(MockLoans) == 74
  {
    MockFilter(RateAbove(HighRate));
    MockSum(Monthly);
    assert Filter(MockLoans, RateAbove(HighRate)) == [MockLoans[3]];
    assert HealthRatio(MockLoans) == 0.25;
    RoundUnique(73.75, 74);
  }

  /** Only the credit card is above 8 % (7.95 % is not): a consolidation
      offer on it alone, 1,200 a month, saving 180 a month. */
  lemma MockOffer()
    ensures OffersPanel(MockLoans) == Consolidation([MockLoans[3]], 1200.0, 180)
  {
    MockFilter(RateAbove(ExpensiveRate));
    assert Filter(MockLoans, RateAbove(ExpensiveRate)) == [MockLoans[3]];
    SumSingle(MockLoans[3], Monthly);
    RoundUnique(180.0, 180);
  }

  /** The demo loan at index i is the only one of its category. */
  lemma MockCard(i: nat)
    requires i < 4
    ensures var l := MockLoans[i];
            CardFor(MockLoans, l.category) == CategoryCard(l.category, l.principalRemaining, l.monthlyPayment, 1)
  {
    var l := MockLoans[i];
    MockFilter(InCategory(l.category));
    assert Filter(MockLoans, InCategory(l.category)) == [l];
    SumSingle(l, Principal);
    SumSingle(l, Monthly);
  }

  /** Each category card lists exactly one demo loan. */
  lemma MockBreakdown()
    ensures Breakdown(MockLoans) == [
      CategoryCard(Bolan, 2150000.0, 9850.0, 1),
      CategoryCard(Privatlan, 185000.0, 2450.0, 1),
      CategoryCard(Billan, 145000.0, 2150.0, 1),
      CategoryCard(Kreditkort, 32500.0, 1200.0, 1)]
  {
    MockCard(0);
    MockCard(1);
    MockCard(2);
    MockCard(3);
  }

  /** The credit card's details: 43,200 left to pay, an interest share of
      10,700 / 36 (shown as 297), an amortisation of 32,500 / 36 (shown as
      903) and an advice saving of 975. */
  lemma MockCreditCardDetails()
    ensures LoanSplit(MockLoans[3]) == Split(43200.0, 10700.0 / 36.0, 32500.0 / 36.0)
    ensures AdviceSaving(MockLoans[3]) == 975.0
    ensures DetailsPanel(Some(MockLoans[3])) == LoanDetails(MockLoans[3], 43200, 903, 297, 975)
  {
    RoundUnique(43200.0, 43200);
    RoundUnique(32500.0 / 36.0, 903);
    RoundUnique(10700.0 / 36.0, 297);
    RoundUnique(975.0, 975);
  }

  /** A session on the demo portfolio: open the offers tab, then click the
      credit card row. */
  method DemoSession()
  {
    var app := new App(MockLoans);
    assert app.selectedLoan == Some(MockLoans[0]) && app.IsActive(Overview);
    app.Navigate(Offers);
    assert app.selectedLoan == Some(MockLoans[0]) && app.IsActive(Offers);
    app.SelectLoan(MockLoans[3]);
    assert app.IsActive(Loans);
    MockTermsPositive();
    MockCreditCardDetails();
    var details := app.Details();
    assert details == LoanDetails(MockLoans[3], 43200, 903, 297, 975);
  }
}
