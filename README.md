# Irish personal tax assistant — verified model of the tax calculator and the tax routes

This project models, in Dafny, the domain logic of the Irish Personal Tax
Assistant:

* **The income-tax liability calculator** `calculateTax`
  (`src/utils/taxCalculator.js`). It reads three amounts (gross income,
  deductions, tax credits) and normalises each with `Number(x) || 0`. It then
  computes:
  * the taxable income;
  * the tax in the 20% standard band and the 40% higher band, split at 36,800;
  * the gross tax, and the net tax after credits;
  * the simplified Universal Social Charge (USC) and Pay Related Social
    Insurance (PRSI);
  * the total liability, the net income and the effective rate.
* **The tax routes** (`routes/taxRoutes.js`):
  * `GET /calculate`, which carries its own line-for-line copy of the formula;
  * the ownership and admin guards of the tax-return and document routes,
    where "not found" is decided before "forbidden";
  * `GET /deadlines`, the list of three filing deadlines for the current year.

Amounts are exact reals (`real`). A raw input is `Amount = Absent | NotANumber
| Num(value)`, and `NumberOrZero` maps the first two to 0. Every number is
kept, **negative numbers included**: `Number(-500) || 0` is `-500`.

The calculator is pure, so it is modelled as functions with lemmas:

* `Schedule` runs the steps on normalised numbers, and `CalculateTax`
  normalises the inputs and then calls `Schedule`.
* `FollowsSchedule` states the schedule as a relation on a finished record.
* `Consistent` states the field relations every result keeps.
* The lemmas connect these to each other, to the route's copy and to
  concrete inputs.

The access guards are decision functions from the request and the looked-up
record's owner to an `Outcome`:

| outcome | status |
|---|---|
| `Allowed` | 200 |
| `NotFound` | 404 |
| `Forbidden` | 403 |
| `ServerError` | 500 |

The modules are:

* `Wrappers`: `Option`.
* `TaxCalculator`: the calculator.
* `DecimalText`: decimal text of integers and its inverse, used for the
  deadline dates.
* `TaxRoutes`: the routes.

## Model

| member | source | states |
|---|---|---|
| TaxCalculator.NumberOrZero | src/utils/taxCalculator.js:14-16 | A number is kept as it is, negative ones included. The result is 0 exactly when the input is missing, not a number, or 0. |
| TaxCalculator.TaxableIncome | src/utils/taxCalculator.js:19 | Taxable income is never negative and never below gross minus deductions. It is either 0 or gross minus deductions. It is at most the gross income when both inputs are non-negative. |
| TaxCalculator.SplitBands | src/utils/taxCalculator.js:27-35 | Up to 36,800 the higher band is 0 and the standard band is 20% of taxable income. Above it the standard band is exactly 7,360 and the higher band is 40% of the excess. The standard band never exceeds 7,360. Both bands are non-negative for non-negative income. In the marginal form, 20% applies to the part up to the cutoff and 40% to the part above. |
| TaxCalculator.GrossTax | src/utils/taxCalculator.js:37 | Gross tax is the sum of the two band taxes. For non-negative taxable income it lies between 20% and 40% of that income. |
| TaxCalculator.NetTax | src/utils/taxCalculator.js:40 | Net tax is never negative, never below gross tax minus credits, and is either 0 or gross tax minus credits. It is at most the gross tax when both are non-negative. |
| TaxCalculator.Usc | src/utils/taxCalculator.js:42-51 | USC is 0 up to 13,000, 2% of the whole income up to 22,920, and 458.4 plus 4.5% of the excess above that. It is never negative, and it is positive exactly above 13,000. Just above the cliff it already exceeds 260. For non-negative income it is at most 4.5% of the income. |
| TaxCalculator.Prsi | src/utils/taxCalculator.js:54 | PRSI is positive exactly when income exceeds 18,304, and then it is 4% of the whole income (more than 732.16). Otherwise it is 0. It is never negative. For non-negative income it is at most 4% of the income. |
| TaxCalculator.EffectiveRate | src/utils/taxCalculator.js:63 | With no positive income the rate is 0, so there is no division by zero. A non-negative liability gives a non-negative rate. |
| TaxCalculator.EffectiveRateShare | src/utils/taxCalculator.js:63 | For a positive income, rate × income = 100 × liability: the rate is the liability's percentage of the income. |
| TaxCalculator.RenderedRate | src/utils/taxCalculator.js:77 | The two-decimal rendering, in hundredths, is within half a hundredth of the exact rate. It is non-negative for a non-negative rate. |
| TaxCalculator.GrossTaxMonotone | src/utils/taxCalculator.js:30-37 | Gross tax never falls when taxable income rises. |
| TaxCalculator.GrossTaxLipschitz | src/utils/taxCalculator.js:30-37 | Gross tax rises by at most 40% of any rise in taxable income, so it is continuous. At the cutoff both branches give 7,360. |
| TaxCalculator.Schedule | src/utils/taxCalculator.js:19-63 | The steps from taxable income to effective rate on normalised numbers. Its promises are stated by ScheduleConsistent, ScheduleDetermines, ScheduleMonotone and ScheduleBelowIncome on any record that follows the schedule. |
| TaxCalculator.CalculateTax | src/utils/taxCalculator.js:12-79 | `calculateTax`: normalise, then run the schedule. Its promises are stated by CalculateTaxConsistent, LiabilityMonotoneInIncome, LiabilityBelowIncome, ZeroIncome, NegativeInputsPassThrough and the concrete examples. |
| TaxCalculator.ScheduleConsistent | src/utils/taxCalculator.js:19-63 | A record that follows the schedule keeps every field relation: taxable income ≥ 0, standard band ≤ 7,360, gross tax = sum of bands, net tax ≥ 0 and ≥ gross tax − credits, levies ≥ 0, total = net tax + USC + PRSI, net income + total = gross income, and a rate of 0 without positive income. |
| TaxCalculator.ScheduleDetermines | src/utils/taxCalculator.js:19-63 | Two records that follow the schedule with the same deductions, income and credits are equal. |
| TaxCalculator.CalculateTaxConsistent | src/utils/taxCalculator.js:12-79 | Every result of the calculator is Consistent, in particular net income + total liability = gross income. Its total liability is never below its net tax. It echoes the normalised income and credits, not the raw inputs. |
| TaxCalculator.ScheduleMonotone | src/utils/taxCalculator.js:19-57 | With the same deductions and credits, a higher income gives no lower gross tax, net tax, USC, PRSI or total liability. |
| TaxCalculator.LiabilityMonotoneInIncome | src/utils/taxCalculator.js:12-57 | Holding deductions and credits fixed, the calculator's gross tax, net tax, USC, PRSI and total liability are non-decreasing in income. |
| TaxCalculator.UscMonotone | src/utils/taxCalculator.js:42-51 | USC is non-decreasing in income, the cliff included. |
| TaxCalculator.PrsiMonotone | src/utils/taxCalculator.js:54 | PRSI is non-decreasing in income, the cliff included. |
| TaxCalculator.EffectiveRateBelow | src/utils/taxCalculator.js:63 | A liability below the share k of a positive income gives a rate below 100·k percent. |
| TaxCalculator.ScheduleBelowIncome | src/utils/taxCalculator.js:19-63 | Take non-negative deductions and credits and a positive income. The liability is below 48.5% of the income, net income is positive, and the rate lies in [0, 48.5). |
| TaxCalculator.LiabilityBelowIncome | src/utils/taxCalculator.js:12-79 | The same bounds for the calculator itself, and its rendered rate is at most "48.50". |
| TaxCalculator.ZeroIncome | src/utils/taxCalculator.js:14-63 | With a gross income of 0 (missing, not a number, or 0) and non-negative deductions, taxable income, gross tax, USC, PRSI and the rate are all 0, and the rate renders as "0.00". |
| TaxCalculator.NegativeInputsPassThrough | src/utils/taxCalculator.js:14-40 | For every input, a negative deduction puts taxable income above gross income, and a negative credit puts net tax above gross tax. |
| TaxCalculator.NegativeInputsExample | src/utils/taxCalculator.js:14-60 | For instance, income 1,000 with a deduction of -500 is taxed on 1,500, and with a credit of -2,000 the net tax is 2,200 and net income is negative. |
| TaxCalculator.WorkedExample | src/utils/taxCalculator.js:12-79 | Income 50,000, deductions 5,000 and credits 3,500 give exactly the record (50000, 45000, 7360, 3280, 10640, 3500, 7140, 1677, 2000, 10817, 39183, 21.634), and the rate renders as "21.63". |
| TaxCalculator.BandEdge | src/utils/taxCalculator.js:30-35 | At 36,800 everything is taxed at 20%. At 36,801 the extra euro is taxed at 40%. |
| TaxCalculator.UscCliff | src/utils/taxCalculator.js:43-51 | 13,000 pays no USC, 13,001 pays 260.02, and net income falls across the cliff. |
| TaxCalculator.PrsiCliff | src/utils/taxCalculator.js:54 | 18,304 pays no PRSI, 18,305 pays 732.2, and net income falls across the cliff. |
| DecimalText.NatText | routes/taxRoutes.js:275 | The text of a natural number is non-empty and all digits, with no leading zero unless the number is 0. |
| DecimalText.IntText | routes/taxRoutes.js:275 | The text of an integer starts with '-' exactly when the integer is negative; the rest is digits. |
| DecimalText.NatTextRoundTrip | routes/taxRoutes.js:275 | Reading back the digits of a natural number gives that number. |
| DecimalText.IntTextRoundTrip | routes/taxRoutes.js:275 | Parsing the text of any integer gives that integer back. |
| TaxRoutes.RouteCalculation | routes/taxRoutes.js:20-69 | The handler's copy of the formula equals `calculateTax` on every input. |
| TaxRoutes.RouteScheduleFollowsSchedule | routes/taxRoutes.js:24-69 | The handler's own computation, with its own constants, follows the calculator's schedule and echoes its income and credits. |
| TaxRoutes.Calculate | routes/taxRoutes.js:15-88 | GET /calculate always answers 200 with success. Its data is the calculator's result for the three query parameters, and the echoed credits and income are the normalised values, not the raw ones. |
| TaxRoutes.ListReturns | routes/taxRoutes.js:133-143 | Over every request, the outcome is never 404. It is allowed exactly when the requester has an id that is either the path's user or paired with an admin user object. It is 403 exactly when both id and user object are present and neither holds. It is 500 exactly when the id is missing, or the user object is missing and the ids differ. |
| TaxRoutes.GuardRecord | routes/taxRoutes.js:163-176 | The shared guard of the record routes follows the owner-or-admin rule when admins are exempt and the owner-only rule otherwise (both stated below). |
| TaxRoutes.ReadReturn | routes/taxRoutes.js:159-176 | Owner-or-admin rule, over every request. It is 404 exactly when the return is missing, before any ownership test. It is allowed exactly when the return exists and the requester has an id that is either the owner's or paired with an admin user object. It is 403 exactly when the return exists, id and user object are present, and neither holds. It is 500 otherwise. |
| TaxRoutes.UpdateReturn | routes/taxRoutes.js:192-210 | Owner-only rule, over every request. It is 404 exactly when the return is missing, allowed exactly for its owner, 403 exactly for any other requester with an id, and 500 without an id. The outcome does not depend on the user object, so admins get no exemption. |
| TaxRoutes.DeleteReturn | routes/taxRoutes.js:234-251 | The owner-or-admin rule, as for ReadReturn. |
| TaxRoutes.DownloadDocument | routes/taxRoutes.js:394-411 | The owner-or-admin rule, as for ReadReturn. |
| TaxRoutes.DeleteDocument | routes/taxRoutes.js:424-441 | The owner-or-admin rule, as for ReadReturn. |
| TaxRoutes.GuardStatuses | routes/taxRoutes.js:163-176 | In HTTP statuses: a missing record answers 404 whoever asks, so 404 comes before 403. A 403 needs an existing record and a requester id. The only statuses a guard answers with are 200, 403, 404 and 500. |
| TaxRoutes.UpdateIsStrictest | routes/taxRoutes.js:163-251 | Whoever may update a return may read and delete it. An admin who does not own it may read and delete it but is refused the update. |
| TaxRoutes.DocumentsFollowReturnRules | routes/taxRoutes.js:398-441 | Document download and delete decide exactly as reading and deleting a tax return do. |
| TaxRoutes.Deadlines | routes/taxRoutes.js:272-286 | The list has exactly three entries, with the three descriptions in order. |
| TaxRoutes.ParseYearText | routes/taxRoutes.js:275-283 | The text of a year followed by `-MM-DD` reads back as that year, month and day. |
| TaxRoutes.DeadlineDates | routes/taxRoutes.js:272-286 | For any current year Y the three dates read as 31 October Y, 15 December Y and 31 January Y+1, each later than the one before. |

`Number(x) || 0` keeps every non-zero number, so negative inputs are not
coerced to 0. The model follows the code; `NegativeInputsPassThrough` and
`NegativeInputsExample` show the consequences.

## Left out

- IEEE-754 doubles: amounts are exact reals, so there is no rounding in
  products and sums, no infinities and no NaN arising from arithmetic.
- `Number(...)` string parsing: an input arrives already read as missing, not
  a number, or a number. Only the rule "missing or NaN becomes 0" is kept. A
  value whose conversion throws is not represented by `Amount`.
- RenderedRate: it models `effectiveTaxRate.toFixed(2)` as a whole number of
  hundredths, rounded half up on the magnitude with the sign put back. This
  has three consequences:
  - the record's `effectiveTaxRate` field holds the exact rate, not a string;
  - the text "-0.00" that a tiny negative rate renders as is read as 0;
  - the exponent notation `toFixed` uses for magnitudes of 1e21 and above is
    not modelled.
- The `year` field of a tax return: the calculator ignores it, and so does
  the model.
- Express routing and the response objects, the MongoDB calls (`find`,
  `findById`, `findByIdAndUpdate`, `deleteOne`), `res.download` and
  `fs.unlinkSync`. They are input/output. Each guarded handler is reduced to
  the outcome its guard reaches, and the looked-up record is given as its
  owner id, or None when the lookup found nothing.
- The clock that `GET /deadlines` reads (`new Date().getFullYear()`): the
  current year is a parameter of `Deadlines`.
- The 500 branch of `GET /calculate`: it is reached only when `Number(...)`
  throws while reading a query value. An example is an object-valued parameter
  such as `?income[toString]=1`. Reading the inputs is left out (see the
  `Number(...)` line), so `Calculate` answers 200 on every input that has
  already been read.
- An id that is not a valid ObjectId: `findById` throws a `CastError`, which
  the error handler (middleware/errorHandler.js) answers with 400 "Invalid ID
  format". This is database behaviour and is not part of this model.
- `middleware/auth.js` is not part of this model. The request's `userId` and
  `user` are inputs, and either may be absent. A guard that reads a property
  of an absent one throws, and the error handler answers 500 (`ServerError`).
  As the program is written, this is the case that actually happens.
  `middleware/auth.js` sets only `req.user = decoded.user`, and the tokens
  that `routes/authRoutes.js` signs carry only `{ id }`. So `req.userId` and
  `req.user` are both undefined, and every guarded route on an existing record
  answers 500. `ListReturns` also answers 500 in this case, and the model's
  `userId`-missing clauses state it.
- The unguarded routes (`POST /create`, the progress and document listing
  routes, and the document upload): they do no access decision beyond
  authentication and consist of database and file work.
