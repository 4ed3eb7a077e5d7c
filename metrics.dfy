/**
 * The derived figures the dashboard shows for a list of loans: portfolio
 * totals, the health score, the per-category cards, the consolidation
 * offer and the split shown in the details panel of one loan.
 */
module Metrics {

  import opened LoanData
  import opened Rounding
  import opened Wrappers

  // ---------------------------------------------------------------------
  // Sums over a list of loans

  /** The per-loan quantities the dashboard adds up. */
  datatype Measure = Principal | Monthly | WeightedRate

  function Value(l: Loan, m: Measure): (v: real)
  {
    match m
    case Principal => l.principalRemaining
    case Monthly => l.monthlyPayment
    case WeightedRate => l.interestRate * l.principalRemaining
  }

  /** A reduction from 0 that adds each loan's value, first loan first. */
  function Sum(loans: seq<Loan>, m: Measure): (r: real)
    decreases |loans|
  {
    if loans == [] then 0.0
    else Sum(loans[..|loans| - 1], m) + Value(loans[|loans| - 1], m)
  }

  lemma SumSnoc(loans: seq<Loan>, x: Loan, m: Measure)
    ensures Sum(loans + [x], m) == Sum(loans, m) + Value(x, m)
  {
    assert (loans + [x])[..|loans|] == loans;
  }

  /** Summing is additive over concatenation. */
  lemma {:induction false} SumAppend(a: seq<Loan>, b: seq<Loan>, m: Measure)
    ensures Sum(a + b, m) == Sum(a, m) + Sum(b, m)
    decreases |b|
  {
    if b == [] {
      assert a + b == a;
    } else {
      var b', x := b[..|b| - 1], b[|b| - 1];
      assert b == b' + [x];
      assert a + b == (a + b') + [x];
      SumSnoc(a + b', x, m);
      SumSnoc(b', x, m);
      SumAppend(a, b', m);
    }
  }

  predicate NonNegative(loans: seq<Loan>, m: Measure)
  {
    forall l :: l in loans ==> Value(l, m) >= 0.0
  }

  lemma {:induction false} SumNonNegative(loans: seq<Loan>, m: Measure)
    ensures NonNegative(loans, m) ==> Sum(loans, m) >= 0.0
    decreases |loans|
  {
    if loans != [] && NonNegative(loans, m) {
      var p := loans[..|loans| - 1];
      assert forall l :: l in p ==> l in loans;
      SumNonNegative(p, m);
      assert loans[|loans| - 1] in loans;
    }
  }

  // ---------------------------------------------------------------------
  // Filtering

  /** The selections the dashboard makes: one category, or the loans
      whose rate is strictly above a threshold. */
  datatype Criterion = InCategory(category: Category) | RateAbove(threshold: real)

  predicate Matches(l: Loan, c: Criterion)
  {
    match c
    case InCategory(cat) => l.category == cat
    case RateAbove(t) => l.interestRate > t
  }

  /** The loans that meet `c`, in their original order. */
  function Filter(loans: seq<Loan>, c: Criterion): (r: seq<Loan>)
    ensures |r| <= |loans|
    decreases |loans|
  {
    if loans == [] then []
    else
      var p, x := loans[..|loans| - 1], loans[|loans| - 1];
      if Matches(x, c) then Filter(p, c) + [x] else Filter(p, c)
  }

  /** The filter holds exactly the loans of the input that meet `c`. */
  lemma {:induction false} FilterMembers(loans: seq<Loan>, c: Criterion)
    ensures forall l :: l in Filter(loans, c) <==> l in loans && Matches(l, c)
    decreases |loans|
  {
    if loans != [] {
      var p, x := loans[..|loans| - 1], loans[|loans| - 1];
      assert loans == p + [x];
      FilterMembers(p, c);
    }
  }

  lemma FilterSnoc(loans: seq<Loan>, x: Loan, c: Criterion)
    ensures Filter(loans + [x], c) == if Matches(x, c) then Filter(loans, c) + [x] else Filter(loans, c)
  {
    assert (loans + [x])[..|loans|] == loans;
  }

  /** Filtering keeps the original order: it distributes over concatenation. */
  lemma {:induction false} FilterAppend(a: seq<Loan>, b: seq<Loan>, c: Criterion)
    ensures Filter(a + b, c) == Filter(a, c) + Filter(b, c)
    decreases |b|
  {
    if b == [] {
      assert a + b == a;
    } else {
      var b', x := b[..|b| - 1], b[|b| - 1];
      assert b == b' + [x];
      assert a + b == (a + b') + [x];
      FilterAppend(a, b', c);
      FilterSnoc(a + b', x, c);
      FilterSnoc(b', x, c);
      var fa, fb := Filter(a, c), Filter(b', c);
      if Matches(x, c) {
        assert (fa + fb) + [x] == fa + (fb + [x]);
      }
    }
  }

  /** A list all of whose loans meet `c` is returned unchanged. */
  lemma {:induction false} FilterAllMatch(loans: seq<Loan>, c: Criterion)
    requires forall l :: l in loans ==> Matches(l, c)
    ensures Filter(loans, c) == loans
    decreases |loans|
  {
    if loans != [] {
      var p, x := loans[..|loans| - 1], loans[|loans| - 1];
      assert loans == p + [x];
      assert forall l :: l in p ==> l in loans;
      assert x in loans;
      FilterAllMatch(p, c);
    }
  }

  /** The filtered part of a non-negative measure is at most the whole. */
  lemma {:induction false} SumFilterAtMost(loans: seq<Loan>, c: Criterion, m: Measure)
    requires NonNegative(loans, m)
    ensures 0.0 <= Sum(Filter(loans, c), m) <= Sum(loans, m)
    decreases |loans|
  {
    FilterMembers(loans, c);
    SumNonNegative(Filter(loans, c), m);
    if loans != [] {
      var p, x := loans[..|loans| - 1], loans[|loans| - 1];
      assert loans == p + [x];
      assert forall l :: l in p ==> l in loans;
      assert x in loans;
      SumFilterAtMost(p, c, m);
      if Matches(x, c) {
        SumSnoc(Filter(p, c), x, m);
      }
    }
  }

  lemma EmptyFilter(loans: seq<Loan>, c: Criterion)
    ensures |Filter(loans, c)| == 0 <==> forall l :: l in loans ==> !Matches(l, c)
  {
    FilterMembers(loans, c);
    var r := Filter(loans, c);
    if |r| != 0 {
      assert r[0] in r;
    }
  }

  // ---------------------------------------------------------------------
  // Portfolio totals

  datatype Totals = Totals(totalPrincipal: real, totalMonthly: real, avgRate: real)

  /** Total principal, total monthly payment and the principal-weighted
      average rate; the average is 0 unless the total principal is positive. */
  function ComputeTotals(loans: seq<Loan>): (t: Totals)
    ensures t.totalPrincipal == Sum(loans, Principal) && t.totalMonthly == Sum(loans, Monthly)
    ensures t.totalPrincipal > 0.0 ==> t.avgRate * t.totalPrincipal == Sum(loans, WeightedRate)
    ensures t.totalPrincipal <= 0.0 ==> t.avgRate == 0.0
    ensures loans == [] ==> t == Totals(0.0, 0.0, 0.0)
  {
    var totalPrincipal := Sum(loans, Principal);
    var totalMonthly := Sum(loans, Monthly);
    var totalInterestWeighted := Sum(loans, WeightedRate);
    var avgRate := if totalPrincipal > 0.0 then totalInterestWeighted / totalPrincipal else 0.0;
    Totals(totalPrincipal, totalMonthly, avgRate)
  }

  predicate RatesWithin(loans: seq<Loan>, lo: real, hi: real)
  {
    forall l :: l in loans ==> lo <= l.interestRate <= hi
  }

  /** With non-negative principals the weighted sum lies between the
      principal sum scaled by the lowest and by the highest rate. */
  lemma {:induction false} WeightedSumBounds(loans: seq<Loan>, lo: real, hi: real)
    requires NonNegative(loans, Principal)
    requires RatesWithin(loans, lo, hi)
    ensures lo * Sum(loans, Principal) <= Sum(loans, WeightedRate) <= hi * Sum(loans, Principal)
    decreases |loans|
  {
    if loans == [] {
      assert lo * 0.0 == 0.0 && hi * 0.0 == 0.0;
    } else {
      var p := loans[..|loans| - 1];
      assert NonNegative(p, Principal) && RatesWithin(p, lo, hi) by {
        assert forall l :: l in p ==> l in loans;
      }
      WeightedSumBounds(p, lo, hi);
      WeightedSumStep(loans, lo, hi);
    }
  }

  /** The inductive step of WeightedSumBounds: the bounds for all but the
      last loan extend to the whole list. */
  lemma WeightedSumStep(loans: seq<Loan>, lo: real, hi: real)
    requires loans != []
    requires NonNegative(loans, Principal)
    requires RatesWithin(loans, lo, hi)
    requires var p := loans[..|loans| - 1];
             lo * Sum(p, Principal) <= Sum(p, WeightedRate) <= hi * Sum(p, Principal)
    ensures lo * Sum(loans, Principal) <= Sum(loans, WeightedRate) <= hi * Sum(loans, Principal)
  {
    var p, x := loans[..|loans| - 1], loans[|loans| - 1];
    var w, rate := x.principalRemaining, x.interestRate;
    assert w >= 0.0 && lo <= rate <= hi by {
      assert x in loans;
    }
    var S, W := Sum(p, Principal), Sum(p, WeightedRate);
    var S', W' := Sum(loans, Principal), Sum(loans, WeightedRate);
    assert S' == S + w && W' == W + rate * w;
    BoundStep(lo, hi, S, W, w, rate, S', W');
  }

  /** One loan more keeps the weighted sum within the scaled bounds. */
  lemma BoundStep(lo: real, hi: real, S: real, W: real, w: real, rate: real, S': real, W': real)
    requires lo * S <= W <= hi * S
    requires w >= 0.0 && lo <= rate <= hi
    requires S' == S + w && W' == W + rate * w
    ensures lo * S' <= W' <= hi * S'
  {
    ScaleStep(lo, rate, S, w);
    ScaleStep(rate, hi, S, w);
  }

  /** Scaling by a larger factor gives more, for a non-negative amount. */
  lemma MulMonotone(a: real, b: real, w: real)
    requires a <= b && w >= 0.0
    ensures a * w <= b * w
  {
    assert b * w - a * w == (b - a) * w;
  }

  lemma ScaleStep(a: real, b: real, s: real, w: real)
    requires a <= b && w >= 0.0
    ensures a * (s + w) == a * s + a * w && b * (s + w) == b * s + b * w
    ensures a * w <= b * w
  {
    MulMonotone(a, b, w);
  }

  lemma MulStrict(a: real, b: real, w: real)
    requires a < b && w > 0.0
    ensures a * w < b * w
  {
    assert b * w - a * w == (b - a) * w;
  }

  lemma RatioWithin(avg: real, P: real, W: real, lo: real, hi: real)
    requires P > 0.0 && avg * P == W
    requires lo * P <= W <= hi * P
    ensures lo <= avg <= hi
  {
    if avg < lo {
      MulStrict(avg, lo, P);
    }
    if avg > hi {
      MulStrict(hi, avg, P);
    }
  }

  /** The average rate lies within any bounds on the individual rates,
      provided principals are non-negative and their total is positive. */
  lemma AvgRateWithin(loans: seq<Loan>, lo: real, hi: real)
    requires NonNegative(loans, Principal)
    requires RatesWithin(loans, lo, hi)
    requires ComputeTotals(loans).totalPrincipal > 0.0
    ensures lo <= ComputeTotals(loans).avgRate <= hi
  {
    WeightedSumBounds(loans, lo, hi);
    var t := ComputeTotals(loans);
    RatioWithin(t.avgRate, t.totalPrincipal, Sum(loans, WeightedRate), lo, hi);
  }

  /** The lowest rate in a non-empty list. */
  function MinRate(loans: seq<Loan>): (r: real)
    requires loans != []
    ensures forall l :: l in loans ==> r <= l.interestRate
    ensures exists l :: l in loans && l.interestRate == r
    decreases |loans|
  {
    var p, x := loans[..|loans| - 1], loans[|loans| - 1];
    assert loans == p + [x];
    if p == [] then x.interestRate
    else
      var m := MinRate(p);
      if x.interestRate < m then x.interestRate else m
  }

  /** The highest rate in a non-empty list. */
  function MaxRate(loans: seq<Loan>): (r: real)
    requires loans != []
    ensures forall l :: l in loans ==> l.interestRate <= r
    ensures exists l :: l in loans && l.interestRate == r
    decreases |loans|
  {
    var p, x := loans[..|loans| - 1], loans[|loans| - 1];
    assert loans == p + [x];
    if p == [] then x.interestRate
    else
      var m := MaxRate(p);
      if x.interestRate > m then x.interestRate else m
  }

  /** With non-negative principals and a positive total, the average rate
      lies between the lowest and the highest rate of the list. */
  lemma AvgRateBetweenMinAndMax(loans: seq<Loan>)
    requires NonNegative(loans, Principal)
    requires ComputeTotals(loans).totalPrincipal > 0.0
    ensures loans != []
    ensures MinRate(loans) <= ComputeTotals(loans).avgRate <= MaxRate(loans)
  {
    AvgRateWithin(loans, MinRate(loans), MaxRate(loans));
  }

  // ---------------------------------------------------------------------
  // Health score

  /** A part of a positive whole is a share in [0, 1], and 0 only for an empty part. */
  lemma ShareBounds(part: real, whole: real)
    requires 0.0 <= part <= whole && whole > 0.0
    ensures 0.0 <= part / whole <= 1.0
    ensures part / whole == 0.0 <==> part == 0.0
  {
    var q := part / whole;
    assert q * whole == part;
    if q < 0.0 {
      MulStrict(q, 0.0, whole);
    }
    if q > 1.0 {
      MulStrict(1.0, q, whole);
    }
  }

  /** Loans with a rate strictly above this percentage count against the score. */
  const HighRate: real := 10.0

  /** The number of loans above `HighRate`: at most the list's length, and
      0 exactly when no rate exceeds `HighRate`. */
  function HighRateCount(loans: seq<Loan>): (n: nat)
    ensures n == |Filter(loans, RateAbove(HighRate))|
    ensures n <= |loans|
    ensures n == 0 <==> forall l :: l in loans ==> l.interestRate <= HighRate
  {
    EmptyFilter(loans, RateAbove(HighRate));
    |Filter(loans, RateAbove(HighRate))|
  }

  /** Share of high-rate loans, taken as 0 unless the total monthly
      payment is positive (which also rules out the empty list). */
  function HealthRatio(loans: seq<Loan>): (r: real)
    ensures Sum(loans, Monthly) > 0.0 ==> loans != [] && r * |loans| as real == HighRateCount(loans) as real
    ensures 0.0 <= r <= 1.0
    ensures r == 0.0 <==> Sum(loans, Monthly) <= 0.0 || HighRateCount(loans) == 0
  {
    if Sum(loans, Monthly) > 0.0 then
      assert loans != [];
      ShareBounds(HighRateCount(loans) as real, |loans| as real);
      HighRateCount(loans) as real / |loans| as real
    else 0.0
  }

  /** 80 minus 25 times the high-rate share, rounded and clamped to [30, 95].
      The share is at most 1, so the score never leaves [55, 80] and the
      clamp never acts. */
  function HealthScore(loans: seq<Loan>): (r: int)
    ensures 30 <= r <= 95
    ensures 55 <= r <= 80
    ensures r == Round(80.0 - 25.0 * HealthRatio(loans))
    ensures Sum(loans, Monthly) <= 0.0 || HighRateCount(loans) == 0 ==> r == 80
    ensures (forall l :: l in loans ==> l.interestRate <= HighRate) ==> r == 80
  {
    EmptyFilter(loans, RateAbove(HighRate));
    var base := 80.0 - HealthRatio(loans) * 25.0;
    Clamp(30, 95, Round(base))
  }

  /** Among lists of one length with a positive monthly total, more
      high-rate loans never give a higher score. */
  lemma HealthScoreNonIncreasing(a: seq<Loan>, b: seq<Loan>)
    requires |a| == |b|
    requires Sum(a, Monthly) > 0.0 && Sum(b, Monthly) > 0.0
    requires HighRateCount(a) <= HighRateCount(b)
    ensures HealthScore(a) >= HealthScore(b)
  {
    assert a != [];
    var n := |a| as real;
    assert HealthRatio(a) == HighRateCount(a) as real / n;
    assert HealthRatio(b) == HighRateCount(b) as real / n;
    assert HighRateCount(a) as real <= HighRateCount(b) as real;
    DivMonotone(HighRateCount(a) as real, HighRateCount(b) as real, n);
    assert HealthRatio(a) <= HealthRatio(b);
    RoundMonotone(80.0 - HealthRatio(b) * 25.0, 80.0 - HealthRatio(a) * 25.0);
  }

  lemma DivMonotone(x: real, y: real, n: real)
    requires x <= y && n > 0.0
    ensures x / n <= y / n
  {
    assert y / n - x / n == (y - x) / n;
  }

  lemma DivSelf(n: real)
    requires n > 0.0
    ensures n / n == 1.0
  {
  }

  /** The score depends on the list only through its length, its
      high-rate count and whether its monthly total is positive. */
  lemma HealthScoreDependsOnCount(a: seq<Loan>, b: seq<Loan>)
    requires |a| == |b|
    requires Sum(a, Monthly) > 0.0 <==> Sum(b, Monthly) > 0.0
    requires HighRateCount(a) == HighRateCount(b)
    ensures HealthScore(a) == HealthScore(b)
  {
    if Sum(a, Monthly) > 0.0 {
      HealthScoreNonIncreasing(a, b);
      HealthScoreNonIncreasing(b, a);
    }
  }

  /** A list of only high-rate loans with a positive monthly total scores 55. */
  lemma HealthScoreAllHighRate(loans: seq<Loan>)
    requires Sum(loans, Monthly) > 0.0
    requires forall l :: l in loans ==> l.interestRate > HighRate
    ensures HealthScore(loans) == 55
  {
    assert HealthRatio(loans) == 1.0 by {
      FilterAllMatch(loans, RateAbove(HighRate));
      assert loans != [];
      var n := |loans| as real;
      assert HighRateCount(loans) as real == n;
      DivSelf(n);
    }
    RoundUnique(55.0, 55);
  }

  // ---------------------------------------------------------------------
  // Per-category breakdown

  /** The category cards are shown in this order. */
  const Categories: seq<Category> := [Bolan, Privatlan, Billan, Kreditkort]

  /** One card: the loans of a category, their principal and monthly sums
      and their number. */
  datatype CategoryCard = CategoryCard(category: Category, total: real, monthly: real, count: nat)
  {
    /** The card reads "no active loans in this category" instead of figures. */
    predicate NoActiveLoans()
    {
      count == 0
    }
  }

  /** The card for `cat`, given the loans of that category. */
  function Card(cat: Category, loans: seq<Loan>): (card: CategoryCard)
    ensures card.category == cat && card.count == |loans|
    ensures card.total == Sum(loans, Principal) && card.monthly == Sum(loans, Monthly)
    ensures card.NoActiveLoans() <==> loans == []
    ensures NonNegative(loans, Principal) ==> card.total >= 0.0
    ensures NonNegative(loans, Monthly) ==> card.monthly >= 0.0
  {
    SumNonNegative(loans, Principal);
    SumNonNegative(loans, Monthly);
    CategoryCard(cat, Sum(loans, Principal), Sum(loans, Monthly), |loans|)
  }

  function CardFor(all: seq<Loan>, cat: Category): (card: CategoryCard)
    ensures card.category == cat
    ensures var own := Filter(all, InCategory(cat));
            card.count == |own| && card.total == Sum(own, Principal) && card.monthly == Sum(own, Monthly)
    ensures card.NoActiveLoans() <==> forall l :: l in all ==> l.category != cat
  {
    EmptyFilter(all, InCategory(cat));
    Card(cat, Filter(all, InCategory(cat)))
  }

  /** The four category cards, one per label, in display order. */
  function Breakdown(all: seq<Loan>): (cards: seq<CategoryCard>)
    ensures |cards| == |Categories|
    ensures forall i :: 0 <= i < |cards| ==> cards[i] == CardFor(all, Categories[i])
    ensures forall i :: 0 <= i < |cards| ==> cards[i].category == Categories[i]
    ensures forall i :: 0 <= i < |cards| ==>
              (cards[i].NoActiveLoans() <==> forall l :: l in all ==> l.category != Categories[i])
  {
    [CardFor(all, Bolan), CardFor(all, Privatlan), CardFor(all, Billan), CardFor(all, Kreditkort)]
  }

  /** Splitting by the four categories loses and duplicates nothing,
      for every measure and for the count. */
  lemma {:induction false} CategoriesPartition(all: seq<Loan>, m: Measure)
    ensures Sum(all, m) == Sum(Filter(all, InCategory(Bolan)), m) + Sum(Filter(all, InCategory(Privatlan)), m)
                         + Sum(Filter(all, InCategory(Billan)), m) + Sum(Filter(all, InCategory(Kreditkort)), m)
    ensures |all| == |Filter(all, InCategory(Bolan))| + |Filter(all, InCategory(Privatlan))|
                   + |Filter(all, InCategory(Billan))| + |Filter(all, InCategory(Kreditkort))|
    decreases |all|
  {
    if all != [] {
      var p, x := all[..|all| - 1], all[|all| - 1];
      assert all == p + [x];
      CategoriesPartition(p, m);
      FilterSnoc(p, x, InCategory(Bolan));
      FilterSnoc(p, x, InCategory(Privatlan));
      FilterSnoc(p, x, InCategory(Billan));
      FilterSnoc(p, x, InCategory(Kreditkort));
      match x.category
      case Bolan => SumSnoc(Filter(p, InCategory(Bolan)), x, m);
      case Privatlan => SumSnoc(Filter(p, InCategory(Privatlan)), x, m);
      case Billan => SumSnoc(Filter(p, InCategory(Billan)), x, m);
      case Kreditkort => SumSnoc(Filter(p, InCategory(Kreditkort)), x, m);
    }
  }

  /** The cards' principal sums add up to the total principal, their
      monthly sums to the total monthly payment, their counts to the
      number of loans. */
  lemma BreakdownAddsUp(all: seq<Loan>)
    ensures var b, t := Breakdown(all), ComputeTotals(all);
            b[0].total + b[1].total + b[2].total + b[3].total == t.totalPrincipal &&
            b[0].monthly + b[1].monthly + b[2].monthly + b[3].monthly == t.totalMonthly &&
            b[0].count + b[1].count + b[2].count + b[3].count == |all|
  {
    CategoriesPartition(all, Principal);
    CategoriesPartition(all, Monthly);
  }

  // ---------------------------------------------------------------------
  // Consolidation offer

  /** Loans with a rate strictly above this percentage are offered consolidation. */
  const ExpensiveRate: real := 8.0

  /** The estimated monthly saving is this fraction of their monthly cost. */
  const SavingFactor: real := 0.15

  datatype Offer =
    | LooksHealthy
    | Consolidation(expensiveLoans: seq<Loan>, expensiveMonthly: real, saving: int)

  /** The offers tab: either "looks healthy", or the expensive loans,
      their monthly cost and the rounded estimated saving. */
  function OffersPanel(loans: seq<Loan>): (r: Offer)
    ensures r.LooksHealthy? <==> forall l :: l in loans ==> l.interestRate <= ExpensiveRate
    ensures r.Consolidation? ==> r.expensiveLoans != []
    ensures r.Consolidation? ==>
              r.expensiveLoans == Filter(loans, RateAbove(ExpensiveRate)) &&
              r.expensiveMonthly == Sum(r.expensiveLoans, Monthly)
    ensures r.Consolidation? ==>
              forall l :: l in r.expensiveLoans <==> l in loans && l.interestRate > ExpensiveRate
    ensures r.Consolidation? ==>
              r.saving as real - 0.5 <= SavingFactor * r.expensiveMonthly < r.saving as real + 0.5
  {
    var expensive := Filter(loans, RateAbove(ExpensiveRate));
    var expensiveMonthly := Sum(expensive, Monthly);
    EmptyFilter(loans, RateAbove(ExpensiveRate));
    FilterMembers(loans, RateAbove(ExpensiveRate));
    if |expensive| == 0 then LooksHealthy
    else Consolidation(expensive, expensiveMonthly, Round(expensiveMonthly * SavingFactor))
  }

  /** With non-negative payments, the expensive loans cost at most the
      whole portfolio per month, and the saving is non-negative and at
      most the rounded share of the total. */
  lemma OfferBounded(loans: seq<Loan>)
    requires NonNegative(loans, Monthly)
    ensures var r := OffersPanel(loans);
            r.Consolidation? ==>
              0.0 <= r.expensiveMonthly <= ComputeTotals(loans).totalMonthly &&
              0 <= r.saving <= Round(SavingFactor * ComputeTotals(loans).totalMonthly)
  {
    SumFilterAtMost(loans, RateAbove(ExpensiveRate), Monthly);
    var r := OffersPanel(loans);
    if r.Consolidation? {
      RoundMonotone(0.0, SavingFactor * r.expensiveMonthly);
      RoundUnique(0.0, 0);
      RoundMonotone(SavingFactor * r.expensiveMonthly, SavingFactor * ComputeTotals(loans).totalMonthly);
    }
  }

  // ---------------------------------------------------------------------
  // Details panel

  /** The approximate monthly split of one loan: what remains to be paid,
      the interest part of a payment and the amortisation part. */
  datatype Split = Split(totalCost: real, interestShare: real, amortization: real)

  /** Interest is what the remaining payments exceed the principal by,
      spread evenly over the remaining months. */
  function LoanSplit(loan: Loan): (s: Split)
    requires loan.monthsRemaining > 0
    ensures s.interestShare + s.amortization == loan.monthlyPayment
    ensures s.amortization * loan.monthsRemaining as real == loan.principalRemaining
    ensures s.totalCost == s.interestShare * loan.monthsRemaining as real + loan.principalRemaining
    ensures s.interestShare >= 0.0 <==> s.totalCost >= loan.principalRemaining
  {
    var months := loan.monthsRemaining as real;
    var totalCost := loan.monthlyPayment * months;
    var approxInterestCost := totalCost - loan.principalRemaining;
    var monthlyInterestShare := approxInterestCost / months;
    var monthlyAmortization := loan.monthlyPayment - monthlyInterestShare;
    Split(totalCost, monthlyInterestShare, monthlyAmortization)
  }

  /** Estimated saving over the remaining term if the rate went down by
      one percentage point: a year's 1 % of the principal, pro rata. */
  function AdviceSaving(loan: Loan): (a: real)
    ensures a * 1200.0 == loan.principalRemaining * loan.monthsRemaining as real
    ensures loan.principalRemaining >= 0.0 && loan.monthsRemaining >= 0 ==> a >= 0.0
  {
    loan.principalRemaining * 0.01 * loan.monthsRemaining as real / 12.0
  }

  /** The saving grows with the principal and with the remaining term. */
  lemma AdviceSavingMonotone(a: Loan, b: Loan)
    requires 0.0 <= a.principalRemaining <= b.principalRemaining
    requires 0 <= a.monthsRemaining <= b.monthsRemaining
    ensures AdviceSaving(a) <= AdviceSaving(b)
  {
    var pa, pb := a.principalRemaining, b.principalRemaining;
    var ma, mb := a.monthsRemaining as real, b.monthsRemaining as real;
    MulMonotone(pa, pb, ma);
    MulMonotone(ma, mb, pb);
    assert pa * ma <= pb * mb;
  }

  /** What the details panel shows: a placeholder, or the loan with its
      figures rounded to whole kronor. */
  datatype DetailsView =
    | Placeholder
    | LoanDetails(loan: Loan, totalCost: int, amortization: int, interestShare: int, adviceSaving: int)

  function DetailsPanel(selected: Option<Loan>): (v: DetailsView)
    requires selected.Some? ==> selected.value.monthsRemaining > 0
    ensures v.Placeholder? <==> selected.None?
    ensures v.LoanDetails? ==> v.loan == selected.value
    ensures v.LoanDetails? ==>
              var s := LoanSplit(v.loan);
              v.totalCost == Round(s.totalCost) && v.amortization == Round(s.amortization) &&
              v.interestShare == Round(s.interestShare) && v.adviceSaving == Round(AdviceSaving(v.loan))
    ensures v.LoanDetails? ==>
              v.loan.monthlyPayment - 1.0 < (v.amortization + v.interestShare) as real <= v.loan.monthlyPayment + 1.0
  {
    match selected
    case None => Placeholder
    case Some(loan) =>
      var s := LoanSplit(loan);
      LoanDetails(loan, Round(s.totalCost), Round(s.amortization), Round(s.interestShare),
                  Round(AdviceSaving(loan)))
  }
}
