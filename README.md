# LåneKompassen dashboard metrics, in Dafny

LåneKompassen is a demo dashboard that aggregates a person's loans. It
shows a fixed portfolio of four loans, and computes from it:

- the portfolio totals: total principal, total monthly payment, and the
  principal-weighted average rate;
- a health score from the share of loans above 10 %;
- one card per loan category;
- a consolidation offer for the loans above 8 %;
- for the selected loan, an approximate split of the payment into
  interest and amortisation, and the saving from a one-point lower rate.

Its only state is the open tab and the selected loan.

This project models that arithmetic and that state and proves properties
of them:

- `loan_data.dfy`: the loan record and the demo portfolio.
- `rounding.dfy`: JavaScript's `Math.round`, modelled as `Floor(x + 1/2)`,
  and the `Math.max`/`Math.min` clamp.
- `metrics.dfy`: sums, filters, totals, health score, category cards,
  offer and details split.
- `dashboard.dfy`: the tab and selection state, as a class.
- `mock_facts.dfy`: the figures the dashboard shows for the demo portfolio,
  and `DemoSession`, a session that opens the dashboard, switches to the
  offers tab, selects the credit card and reads its details panel.
- `wrappers.dfy`: the `Option` type for "no loan selected".

Amounts and rates are `real`. Rates are percentages. The source runs every
metric over its constant portfolio. The model takes the list as a
parameter and instantiates it with `MockLoans` in `mock_facts.dfy`.

Facts about the code that the model makes explicit:
- The weighted average rate of the demo portfolio is
  10,983,750 / 2,512,500, which lies between 4.3716 % and 4.3717 %.
- The details panel estimates the monthly interest as
  (payment · months − principal) / months, and the amortisation as
  principal / months.
- The saving the offers panel shows is a flat 15 % of the expensive
  loans' monthly cost. The panel's text speaks of a rate 3 percentage
  points lower, but no figure is computed from that.
- The category breakdown always shows four cards, one per category. A
  category without loans gets a card that reads "no active loans".

## Model

| member | source | states |
|---|---|---|
| `LoanData.MockLoansShape` | src/src/mockData.ts:15-60 | four demo loans with distinct ids "1".."4", one per category, in the order mortgage, personal, car, card |
| `LoanData.MockTermsPositive` | src/src/mockData.ts:15-60 | every demo loan has a positive remaining term and non-negative principal and payment |
| `Rounding.Round` | src/App.tsx:51 | the result is the integer nearest to x, with halves rounded up (x lies in [r − 1/2, r + 1/2)) |
| `Rounding.RoundUnique` | src/App.tsx:51 | any integer within [k − 1/2, k + 1/2) of x is Round(x) |
| `Rounding.RoundMonotone` | src/App.tsx:51 | rounding is monotone |
| `Rounding.Clamp` | src/App.tsx:51 | the result is at least lo, at most hi when lo ≤ hi, and equal to v when v is already in range |
| `Metrics.Sum` | src/App.tsx:22-33 | the reduce from 0 behind the totals (lines 22-33), the card sums (179-180) and the offer's monthly cost (243-246); it has no contract of its own, its meaning is stated by the next three rows |
| `Metrics.SumSnoc` | src/App.tsx:22-33 | the reduce runs in list order: appending a loan adds its value to the sum |
| `Metrics.SumAppend` | src/App.tsx:22-29 | the reduce-from-0 sums are additive over concatenation |
| `Metrics.SumNonNegative` | src/App.tsx:22-29 | if every loan's amount is non-negative, so is the sum |
| `Metrics.Filter` | src/App.tsx:242 | the filtered list is no longer than the input |
| `Metrics.FilterMembers` | src/App.tsx:242 | the filtered list holds exactly the loans of the input that meet the criterion |
| `Metrics.FilterAppend` | src/App.tsx:242 | filtering distributes over concatenation, so it keeps the original order |
| `Metrics.FilterAllMatch` | src/App.tsx:47 | a list whose loans all meet the criterion is returned unchanged |
| `Metrics.EmptyFilter` | src/App.tsx:188 | the filter is empty exactly when no loan meets the criterion |
| `Metrics.SumFilterAtMost` | src/App.tsx:242-246 | for non-negative amounts, the sum over a filtered list lies between 0 and the sum over the whole list |
| `Metrics.ComputeTotals` | src/App.tsx:21-42 | total principal and total monthly payment are the sums of the loans' principals and payments; with positive total principal, average rate × total principal equals the principal-weighted rate sum; otherwise the average rate is 0; the empty list gives all zeros |
| `Metrics.WeightedSumBounds` | src/App.tsx:30-33 | with non-negative principals and rates in [lo, hi], the weighted sum lies between lo and hi times the principal sum |
| `Metrics.AvgRateWithin` | src/App.tsx:30-35 | with non-negative principals and positive total, the average rate respects every bound on the individual rates |
| `Metrics.MinRate` | src/App.tsx:30-35 | the lowest rate of a non-empty list: a bound on every rate, attained by one loan |
| `Metrics.MaxRate` | src/App.tsx:30-35 | the highest rate of a non-empty list: a bound on every rate, attained by one loan |
| `Metrics.AvgRateBetweenMinAndMax` | src/App.tsx:30-35 | with non-negative principals and positive total, the list is non-empty and the average rate lies between its lowest and highest rate |
| `Metrics.HighRateCount` | src/App.tsx:47 | the count is the length of the list of loans above 10 %, so at most the number of loans, and 0 exactly when no rate exceeds 10 % |
| `Metrics.HealthRatio` | src/App.tsx:45-49 | when the monthly total is positive, the list is non-empty and share × number of loans = number of loans above 10 %; the share lies in [0, 1]; it is 0 exactly when the monthly total is not positive or no loan is above 10 % |
| `Metrics.HealthScore` | src/App.tsx:44-52 | the score is Round(80 − 25 · share), so the clamp to [30, 95] never acts; it lies in [55, 80] and is 80 when the monthly total is not positive or no rate exceeds 10 % |
| `Metrics.HealthScoreNonIncreasing` | src/App.tsx:46-51 | for lists of one length with positive monthly totals, more loans above 10 % never raise the score |
| `Metrics.HealthScoreDependsOnCount` | src/App.tsx:46-51 | lists with equal length, equal high-rate count and the same sign of the monthly total get the same score |
| `Metrics.HealthScoreAllHighRate` | src/App.tsx:45-51 | if every loan is above 10 % and the monthly total is positive, the score is 55 |
| `Metrics.Card` | src/App.tsx:179-202 | a card keeps its category, counts its loans, and shows their principal sum and monthly-payment sum; it shows "no active loans" exactly when it has none; its sums are non-negative when the amounts are |
| `Metrics.CardFor` | src/App.tsx:179-203 | the card for a category counts and sums exactly the loans of that category (count, principal sum, monthly sum); it shows "no active loans" exactly when no loan has that category |
| `Metrics.Breakdown` | src/App.tsx:125-133 | four cards, in order mortgage, personal, car, card, each the card of its category over the whole list; each is empty exactly when no loan has its category |
| `Metrics.CategoriesPartition` | src/App.tsx:125-133 | the four category filters split every sum and the loan count without loss or overlap |
| `Metrics.BreakdownAddsUp` | src/App.tsx:175-181 | the cards' principal sums add up to the total principal, their monthly sums to the total monthly payment, and their counts to the number of loans |
| `Metrics.OffersPanel` | src/App.tsx:242-271 | "looks healthy" exactly when no rate exceeds 8 %; otherwise a non-empty offer whose loans are the input's loans above 8 %, in order, whose monthly cost is their payment sum, and whose saving is that sum's 15 % rounded |
| `Metrics.OfferBounded` | src/App.tsx:242-246 | with non-negative payments, the offer's monthly cost is between 0 and the total monthly payment, and its saving is between 0 and the rounded 15 % of the total |
| `Metrics.LoanSplit` | src/App.tsx:306-309 | for a positive term, interest share + amortisation = payment; amortisation × months = principal; total cost = interest share × months + principal; the interest share is non-negative exactly when the total cost covers the principal |
| `Metrics.AdviceSaving` | src/App.tsx:375 | the one-point saving times 1200 equals principal × months; it is non-negative for non-negative principal and term |
| `Metrics.AdviceSavingMonotone` | src/App.tsx:375 | a larger principal and a longer term never give a smaller one-point saving |
| `Metrics.DetailsPanel` | src/App.tsx:296-365 | placeholder exactly when nothing is selected; otherwise it shows the selected loan and the rounded total cost, amortisation, interest share and advice saving of that loan, and the rounded amortisation and interest add up to the payment within 1 krona |
| `Dashboard.App.constructor` | src/App.tsx:18-19 | the dashboard opens on the overview tab with the first loan selected |
| `Dashboard.App.SelectLoan` | src/App.tsx:54-57 | selecting a loan sets both the selection and the loans tab; the invariant holds exactly when the loan belongs to the portfolio |
| `Dashboard.App.Navigate` | src/App.tsx:78-95 | a navigation button opens its tab, so exactly that tab is highlighted, and leaves the selection unchanged |
| `Dashboard.ExactlyOneTabActive` | src/App.tsx:79-91 | exactly one navigation button is highlighted: the one whose tab `IsActive` names |
| `Dashboard.App.Details` | src/App.tsx:157 | the details panel of the current selection is a placeholder exactly when nothing is selected, and otherwise shows the selected loan, which belongs to the portfolio |
| `MockFacts.MockTotals` | src/src/mockData.ts:21-56 | demo totals: principal 2,512,500, monthly 15,650, average rate 10,983,750 / 2,512,500, between 4.3716 and 4.3717 |
| `MockFacts.MockHealthScore` | src/src/mockData.ts:22-55 | one demo loan is above 10 % and the score is 74 |
| `MockFacts.MockOffer` | src/src/mockData.ts:22-56 | the offer covers only the credit card (7.95 % is not above 8 %), with monthly cost 1,200 and saving 180 |
| `MockFacts.MockBreakdown` | src/src/mockData.ts:15-60 | each category card holds exactly one demo loan with that loan's figures |
| `MockFacts.MockCreditCardDetails` | src/src/mockData.ts:54-57 | credit card: total cost 43,200, interest share 10,700 / 36 (shown 297), amortisation 32,500 / 36 (shown 903), advice saving 975 |

## Left out

- Formatting as currency and as a percentage: these use `Intl.NumberFormat` and JavaScript's `toFixed`, which are outside this model.
- Page layout, the KPI cards, CSS classes, the in-file loan table and `src/LoanList.tsx`: they only render; the table's row click is modelled as `SelectLoan`.
- The `alert` of the offers button: a side effect of the browser.
- `useMemo` caching: the memoised values are plain functions of the loan list.
- Floating point: amounts are exact reals, and JavaScript's rounding error is not modelled.
- Metrics.LoanSplit: requires a positive remaining term. With a zero term, JavaScript gives −Infinity for positive principal and NaN turned into 0 for zero principal; IEEE values are not modelled.
- Metrics.DetailsPanel: requires a positive term for the selected loan, for the same reason.
- Metrics.OffersPanel: takes only the loan list; the totals the component receives are not used by it.
