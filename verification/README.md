# BNPL default-risk rule engine — Dafny model

This project models the rule engine inside `bnpl_prediction_ui` in `app.py`. That
function is a Streamlit page that scores Buy-Now-Pay-Later applicants. When
"Predict Risk" is pressed, it does five things:

1. It derives features from the form values. Employment status is one-hot encoded
   into two flags. Income and purchase amount are floored at `EPS = 1e-6`. Four
   ratios are computed. The thirteen columns are assembled into one record, and the
   model's `feature_names` list selects and orders them.
2. It maps the classifier's probability of default to a risk band and a decision,
   split at 0.15 and 0.30.
3. It writes the conditional-approval lines: two independent threshold checks,
   then a line that is always written.
4. It writes the explanation reasons: four independent predicates in a fixed
   order, with a single fallback line when none fires.
5. It builds the SHAP table. Each value is labelled "Increases Risk" or
   "Decreases Risk", the rows are ordered by absolute value, and the first six are
   shown.

Numbers are mathematical `real`s. The classifier and the SHAP explainer are black
boxes, so they enter the model as function parameters (`Evaluation.Assess`). `Evaluation.Decide` is the decision engine on its own.

Modules:

- `Results` holds `Option` and `Result`.
- `Ordering` holds the generic fact that a strictly rank-ordered sequence is fixed
  by its set of elements.
- `Features` is the feature deriver.
- `Decision` holds the bands, the conditions and the reasons.
- `Attribution` is the SHAP table.
- `Evaluation` is one whole submission.
- `Scenarios` holds worked examples.

The model follows the code as written:

- The number inputs have no minimum. Income, purchase amount, overdue days, missed
  payments and previous loans can be any real, including negative ones. The model
  requires only that the installment count is one of 3, 6, 9 or 12.
- The code does not check that the probability lies in [0, 1]. `RiskBand` bands
  every real.
- The condition lines at app.py:101-107 are written whatever the decision is. Only
  the "Recommended Conditions" header (app.py:98-99) depends on it, so
  `Conditions` models a header flag next to lines that do not depend on the
  decision.
- The SHAP rows are ordered with pandas' default `sort_values`, an unstable
  quicksort, so the model promises no order among rows of equal magnitude.

## Model

| member | source | states |
|---|---|---|
| `Features.Flags` | app.py:38-39 | Each flag is 0 or 1 and at most one is set. Both are 0 exactly for Salaried. `EmploymentOf` reads the status back from the flags. |
| `Features.FlagsDecodeOnlyEncodings` | app.py:38-39 | A flag pair that reads back as a status is that status's encoding, so the encoding and its reading are inverse. |
| `Features.SafeDenominator` | app.py:41-43 | `max(x, EPS)` is at least EPS and positive, is at least x, and is one of the two. It equals x once x reaches EPS. |
| `Features.DeriveRatios` | app.py:45-50 | The divisions are well defined for every income and purchase amount. Each ratio times its denominator gives back its numerator: the safe income, the purchase amount, the installment amount. 5 × the payment risk score = 3 × overdue days + 2 × missed payments. The income/purchase ratio is positive. The installment ratios are non-negative when the purchase is. |
| `Features.ParseColumn` | app.py:53-65 | Parsing a column name gives the feature whose name it is. A name that parses to nothing is none of the thirteen column names. |
| `Features.ColumnNameRoundTrip` | app.py:53-65 | Parsing a feature's own column name gives that feature back. |
| `Features.ColumnNamesDistinct` | app.py:53-65 | The thirteen column names are pairwise distinct. |
| `Features.AssembledRecord` | app.py:52-66 | The record's keys are exactly the thirteen column names. Each key holds its feature's value. |
| `Features.SelectColumns` | app.py:68 | Selection succeeds iff every requested name is a key. On success it gives one value per name, in request order, each equal to the record's value for that name. On failure it lists exactly the requested names that are missing. |
| `Features.DeriveFeatures` | app.py:38-68 | The feature vector exists iff every declared feature name is one of the thirteen columns. It then holds each named feature's value in declared order. Otherwise the error lists exactly the unknown names. |
| `Decision.RiskBand` | app.py:73-81 | LOW/APPROVE iff p < 0.15. MEDIUM/CONDITIONAL APPROVAL iff 0.15 ≤ p < 0.30. HIGH/REJECT iff p ≥ 0.30. So the bands cover every probability and do not overlap. |
| `Decision.RiskBandMonotone` | app.py:73-81 | A higher probability never gets a less severe band. |
| `Decision.RiskBandBoundaries` | app.py:73-81 | 0.15 falls in the medium band and 0.30 in the high band. |
| `Decision.VerdictLabelsDistinct` | app.py:75-98 | Two decision texts are equal iff the decisions are, so the page's string comparisons are decision comparisons. |
| `Decision.ConditionList` | app.py:101-107 | Reduce-installments is present iff installment-to-income > 0.30. Lower-purchase is present iff purchase > 0.5 × monthly income. The upfront payment is always present and last. The list is in writing order with no repeats. |
| `Decision.ConditionListUnique` | app.py:101-107 | Any list in writing order that holds exactly the applicable conditions is the produced list. |
| `Decision.Conditions` | app.py:96-107 | The header is shown iff the decision is CONDITIONAL APPROVAL. The lines are the texts of the condition list, and the last line is "Require 20% upfront payment". |
| `Decision.ConditionLinesIgnoreVerdict` | app.py:98-107 | The condition lines are the same whatever the decision. |
| `Decision.ReduceInstallmentsLine` | app.py:101-102 | Whatever the band, the line "Reduce number of installments (max 6)" is written iff installment-to-income > 0.30. |
| `Decision.FiringReasons` | app.py:112-124 | A reason is present iff its predicate holds: installment-to-income > 0.35, overdue days > 10, missed payments > 2, previous loans > 3. Reasons come in checking order with no duplicates. |
| `Decision.FiringReasonsUnique` | app.py:112-124 | Any list in checking order that holds exactly the firing reasons is the produced list. |
| `Decision.ReasonLines` | app.py:126-130 | The explanation is never empty. It is exactly the single "No major risk factors detected" line iff no reason fires. Otherwise it is the firing reasons' texts in order. |
| `Decision.ConditionLinesMembership` | app.py:101-107 | Whatever the band, a condition's text is among the condition lines iff that condition is in the condition list. |
| `Decision.ReasonLine` | app.py:112-130 | A reason's text is among the explanation lines iff its rule fires; the fallback line never names a reason. |
| `Decision.ReasonLinesMembership` | app.py:112-130 | The explanation lines name exactly the firing reasons. |
| `Decision.InstallmentReasonImpliesCondition` | app.py:101-115 | The installment reason fires only when the reduce-installments condition is also written, because 0.35 > 0.30. |
| `Attribution.ImpactOf` | app.py:139-140 | "Increases Risk" iff the value is > 0. "Decreases Risk" iff it is ≤ 0, zero included. |
| `Attribution.LabelRows` | app.py:135-140 | There is one row per feature, in feature order, carrying that feature's value and a label that is Increases iff the value is > 0. |
| `Attribution.SortByMagnitude` | app.py:142 | The result is a permutation of the rows, in non-increasing absolute value. |
| `Attribution.TopAttributions` | app.py:142-144 | The table has min(6, n) rows, drawn without repetition from the input (multiset inclusion), in non-increasing absolute value. No shown row is smaller in magnitude than any row left out. |
| `Attribution.Explanation` | app.py:135-144 | The table has min(6, n) rows in non-increasing absolute value, drawn without repetition from the labelled rows (multiset inclusion). Each row is some feature's (name, value, label) with the label Increases iff the value is > 0. No shown row is smaller in magnitude than any labelled row left out. |
| `Evaluation.FactsOf` | app.py:46-47 | The installment-to-income value read by the reason rules times the safe income times the installment count is the purchase amount. The other facts are the raw inputs. |
| `Evaluation.Judge` | app.py:73-130 | The sections above the table, for probability p: APPROVE iff p < 0.15, CONDITIONAL APPROVAL iff 0.15 ≤ p < 0.30, REJECT iff p ≥ 0.30, with the matching risk level. The conditions header shows iff the decision is CONDITIONAL APPROVAL. Reduce-installments is written iff installment-to-income > 0.30, lower-purchase iff purchase > 0.5 × income, the upfront line always, in writing order. A reason's text is shown iff its rule fires, in checking order, and the fallback line is shown alone iff none fires. The table is still empty. |
| `Evaluation.Decide` | app.py:73-144 | The same sections as `Judge`, followed by a table of min(6, n) rows in non-increasing magnitude, drawn without repetition from the labelled rows, none smaller in magnitude than a labelled row left out. |
| `Evaluation.Assess` | app.py:37-144 | A schema error occurs iff some declared name is not a column, and it lists exactly the unknown names. The evaluation succeeds iff every name is a column and the attribution list matches the columns in length; the page is then the decision engine's page for the scorer's probability and the explainer's values on the derived vector. On a length mismatch the error records both lengths and carries the sections already written (`Judge` for the scorer's probability). |
| `Evaluation.InstallmentAdviceOnPage` | app.py:101-130 | On the result page, the reduce-installments line is written iff installment-to-income > 0.30. Whenever the installment reason is shown, that line is shown too. |
| `Scenarios.AllReasonsInOrder` | app.py:112-124 | With installment-to-income 0.4, 15 overdue days, 3 missed payments and 5 previous loans, all four reasons fire, in checking order. |
| `Scenarios.CleanApplicant` | app.py:101-130 | Income 50000, purchase 20000 over 6 installments and a clean record give only the no-risk-factors line and only the upfront-payment condition. |
| `Scenarios.StretchedApplicant` | app.py:101-124 | Income 50000, purchase 90000 over 3 installments, 20 overdue days, 5 missed payments and 4 previous loans: all four reasons fire, and all three conditions are recommended. |

## Left out

- Streamlit widgets, layout, CSS, the sidebar and the result metrics/banners (app.py:18-35, 84-94, 97, 110, 133, 149-242). These are presentation. The widget bounds survive only as `ValidInstallments`; age is carried but never constrained or used by the rules.
- Loading of the model, the feature names and `CUTOFF` (app.py:11-13). This is file I/O of an opaque format. `CUTOFF` is never read by the rules.
- `model.predict_proba` and the SHAP explainer (app.py:15, 70-71). These are foreign black boxes, so they become the `scorer` and `explainer` parameters of `Evaluation.Assess`. Their outputs are unconstrained.
- IEEE-754 double rounding, and the `:.2%` formatting of the probability (app.py:86). The model uses exact real arithmetic, so a threshold comparison that rounding could tip either way is decided exactly.
- pandas' exact error messages. A missing column is reported as the list of missing names. A SHAP list whose length differs from the column list, which pandas rejects when it builds the table, is reported as `AttributionLengthMismatch`, which carries the band, conditions and reasons the page has already written by then.
- Attribution.TopAttributions: says nothing about which of several rows of equal magnitude is shown, because the unstable sort at app.py:142 promises no tie order.
- No lemma ranks a concrete attribution list; the ranking of any list follows from `TopAttributions`.
- The "- " and "• " prefixes the page puts before condition lines (app.py:102-107) and reason lines (app.py:128-130) are presentation. The model's lines are the texts without them.
