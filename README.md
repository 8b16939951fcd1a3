# EMI prediction core, modelled in Dafny

This project models the prediction path of a loan-EMI (equated monthly
installment) eligibility assistant. Two pure steps make it up:

- **Feature derivation** (`FeatureBuilder`, `feature_builder.dfy`). It turns one
  applicant record into a feature row. The row keeps the record and adds six columns:
  the six-term expense total, the debt-to-income, expense-to-income and savings
  ratios, a three-level credit-risk bucket, and an employment-stability score.
- **Decision fusion** (`Inference`, `inference.dfy`). It evaluates the hard
  business rules on the feature row, clamps the regressor's EMI estimate at zero,
  and combines the hard-reject flag with the classifier's raw label into one of
  "Eligible", "High Risk" or "Not Eligible".

Modelling choices:

- The classifier and the regressor are opaque trained models. `PredictEmi` takes
  them as parameters: `FeatureRow -> string` and `FeatureRow -> real`.
  `FuseLabel` and `ClampEmi` work on their raw outputs.
- Amounts and ratios are Dafny `real`, so division is exact. The ratios need
  `monthlySalary > 0`. The prediction form's salary field has a minimum of 10000
  (pages/1_Predict_EMI.py:78), so this always holds there.
- pandas `cut` is modelled by its own function, `Cut`. Bin i is the half-open
  interval (edges[i], edges[i+1]], which is the default `right=True`,
  `include_lowest=False` behaviour. A value outside every bin is missing.
- A missing value, which pandas writes as NaN, is `None`. This covers a score
  outside (0, 900] and an employment type missing from the weight dictionary.
- The applicant record is a typed datatype with the form's 25 fields. The feature
  row holds that record unchanged, next to the derived columns.

Label matching and its precedence:

- Label matching is exact membership in `["Eligible", "ELIGIBLE"]` and
  `["High Risk", "High_Risk", "HIGH_RISK"]` (inference.py:78-82). So
  `"eligible"` and `"high risk"` give "Not Eligible" (`FuseLabelIsCaseSensitive`).
- The hard rules are bypassed only by the exact label `"Eligible"`
  (inference.py:75). Under a hard reject, `"ELIGIBLE"` gives "Not Eligible".
- A credit score of exactly 700 is Medium (`FormDefaultsFeatures`).

## Model

| member | source | states |
|---|---|---|
| FeatureBuilder.TotalMonthlyExpenses | feature_builder.py:9-16 | the expense total equals the left-to-right sum of the six expense columns (school, college, travel, groceries, other, rent) |
| FeatureBuilder.SumNonNegative | feature_builder.py:9-16 | a sum of non-negative columns is non-negative (by induction on the column list) |
| FeatureBuilder.SumBoundsTerm | feature_builder.py:9-16 | with no negative term, each term is at most the sum |
| FeatureBuilder.TotalMonthlyExpensesBounds | feature_builder.py:9-16 | with six non-negative expenses, the total is non-negative and at least each single expense |
| FeatureBuilder.Ratio | feature_builder.py:21-23 | the ratio times the salary gives the amount back; the ratio is non-negative iff the amount is, and zero iff the amount is zero |
| FeatureBuilder.RatioExceeds | feature_builder.py:21-22 | a ratio exceeds a bound iff the amount exceeds that fraction of the salary |
| FeatureBuilder.Cut | feature_builder.py:28-32 | the bin found for x is one whose half-open interval (lower, upper] contains x; missing means no interval contains x |
| FeatureBuilder.CutDefinedInRange | feature_builder.py:28-32 | over increasing edges, x gets a bin iff first edge < x <= last edge |
| FeatureBuilder.CutUnique | feature_builder.py:28-32 | over increasing edges, the bin that contains x is the one returned |
| FeatureBuilder.CutMonotone | feature_builder.py:28-32 | over increasing edges, a larger value never falls in an earlier bin |
| FeatureBuilder.CreditRiskBucketOf | feature_builder.py:28-32 | the bucket is missing iff score <= 0 or score > 900 |
| FeatureBuilder.CreditRiskBucketBins | feature_builder.py:28-32 | Low iff 0 < score <= 600, Medium iff 600 < score <= 700, High iff 700 < score <= 900; both directions, so 600 is Low and 700 is Medium |
| FeatureBuilder.CreditRiskBucketMonotone | feature_builder.py:28-32 | a higher credit score never gives a lower bucket |
| FeatureBuilder.EmploymentStabilityScore | feature_builder.py:37-44 | the score is present iff the type is Government, Private or Self-employed; for non-negative years it lies between 0.8 x years and 1.5 x years |
| FeatureBuilder.EmploymentStabilityScoreByType | feature_builder.py:37-44 | Government gives 1.5 x years, Private gives 1.0 x years, Self-employed gives 0.8 x years |
| FeatureBuilder.PrepareInputFeatures | feature_builder.py:3-46 | the input record is carried through unchanged; the total is the sum of the expense columns; each ratio times the salary gives back its numerator; the bucket and the score come from the two derivations above |
| FeatureBuilder.PrepareInputFeaturesNonNegative | feature_builder.py:9-23 | with non-negative amounts, the total and all three ratios are non-negative, and the debt ratio is zero iff the current EMI is zero |
| FeatureBuilder.FormDefaultsFeatures | feature_builder.py:9-44 | the form defaults give total 26000, debt ratio 0, expense ratio 0.52, savings ratio 4, bucket Medium and score 5 |
| Inference.HardReject | inference.py:59-63 | hard reject iff credit score < 450 or debt_to_income > 0.75 or expense_to_income > 0.85: each condition alone forces it, and with none of them it does not hold |
| Inference.HardRejectOnAmounts | inference.py:59-63 | hard reject iff score < 450, or current EMI > 0.75 x salary, or total expenses > 0.85 x salary; every bound is strict |
| Inference.ClampEmi | inference.py:69-70 | the returned EMI is at least zero and at least the estimate, and equals either the estimate or zero (so it equals the estimate when that is non-negative) |
| Inference.FuseLabel | inference.py:75-85 | the label is one of the three; "Eligible" iff the label is exactly "Eligible", or "ELIGIBLE" without a hard reject; "High Risk" iff no hard reject and one of the three high-risk spellings; everything else is "Not Eligible" |
| Inference.HardRejectDominates | inference.py:75-76 | under a hard reject, any label other than exactly "Eligible" gives "Not Eligible" |
| Inference.FuseLabelIsCaseSensitive | inference.py:75-85 | "eligible" and "high risk" give "Not Eligible"; "ELIGIBLE" and "High Risk" under a hard reject give "Not Eligible"; "Eligible" always gives "Eligible" |
| Inference.PredictEmi | inference.py:41-87 | the label is one of the three; the EMI is non-negative; both come from the hard rules and both models, applied to the derived feature row |
| Inference.MaxEmiIndependentOfLabel | inference.py:69-70 | the returned EMI does not depend on the classifier, and equals the estimate when that is non-negative |
| Inference.HeavyDebtRejects | inference.py:59-63 | current EMI above 0.75 x salary and a label other than exactly "Eligible" give "Not Eligible" |
| Inference.FormDefaultsPrediction | inference.py:41-87 | the form defaults, classifier "Eligible" and estimate 8000 give ("Eligible", 8000) |
| Inference.LowCreditScorePrediction | inference.py:59-76 | score 400 and classifier "High Risk" give "Not Eligible" for any EMI estimate |
| Inference.FormDefaultsPassHardRules | inference.py:59-63 | the form defaults do not trigger the hard rules |

## Left out

- `load_models` (inference.py:9-35). It downloads models from a model hub, deserialises them and caches them (I/O and foreign calls). The models are parameters here.
- How the classifier and the regressor work inside. They are opaque trained artefacts.
- A classifier output that is not a string, such as a numeric class. The classifier parameter returns a string.
- IEEE floating point. Ratios are exact rationals, so `0.52` is exact and there is no rounding at the 0.75 and 0.85 bounds. A zero salary would give inf or NaN; the model requires a positive salary instead. A NaN estimate passed to `max` is not modelled.
- pandas' failure modes: a missing column (KeyError) or a non-numeric value. The typed record rules both out.
- A raw input that already holds a derived column name, which pandas would overwrite. The typed record has no such fields.
- The Streamlit pages (form rendering, result display, data exploration, model monitoring, admin upload). They are UI and data glue, not the prediction logic.
