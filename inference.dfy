/**
  Decision fusion for one prediction: the hard business rules over the derived
  features, the clamp on the regressor's EMI estimate, and the if/elif chain
  that combines the hard-reject flag with the classifier's raw label.
  The classifier and the regressor are opaque trained models; they appear
  here as function parameters from the feature row to a label and to a number.
 */
module Inference {
  import opened Wrappers
  import opened FeatureBuilder

  /** The three labels a prediction can carry. */
  const FinalLabels: set<string> := {"Eligible", "High Risk", "Not Eligible"}

  /** Classifier spellings accepted as "Eligible" when no hard rule fires. */
  const EligibleSpellings: seq<string> := ["Eligible", "ELIGIBLE"]

  /** Classifier spellings accepted as "High Risk". */
  const HighRiskSpellings: seq<string> := ["High Risk", "High_Risk", "HIGH_RISK"]

  /** What predict_emi returns: the final label and the clamped EMI estimate. */
  datatype Prediction = Prediction(eligibilityLabel: string, maxEmi: real)

  /** The hard business rules: a poor credit score, or too much of the salary gone to EMIs or to expenses. */
  function HardReject(row: FeatureRow): (r: bool)
    ensures row.applicant.creditScore < 450 ==> r
    ensures row.debtToIncome > 0.75 ==> r
    ensures row.expenseToIncome > 0.85 ==> r
    ensures r ==> row.applicant.creditScore < 450 || row.debtToIncome > 0.75 || row.expenseToIncome > 0.85
  {
    || row.applicant.creditScore < 450
    || row.debtToIncome > 0.75
    || row.expenseToIncome > 0.85
  }

  /** The hard rules restated on the applicant's own amounts, with no division; each bound is strict. */
  lemma HardRejectOnAmounts(a: ApplicantRecord)
    requires a.monthlySalary > 0.0
    ensures HardReject(PrepareInputFeatures(a)) <==>
      || a.creditScore < 450
      || a.currentEmiAmount > 0.75 * a.monthlySalary
      || TotalMonthlyExpenses(a) > 0.85 * a.monthlySalary
  {
    RatioExceeds(a.currentEmiAmount, a.monthlySalary, 0.75);
    RatioExceeds(TotalMonthlyExpenses(a), a.monthlySalary, 0.85);
  }

  /** The safety clamp: the regressor's estimate floored at zero. */
  function ClampEmi(predicted: real): (r: real)
    ensures r >= 0.0 && r >= predicted
    ensures r == predicted || r == 0.0
  {
    if 0.0 > predicted then 0.0 else predicted
  }

  /**
    The final decision chain. Label matching is exact string membership; the
    hard rules are overridden only by the exact label "Eligible".
   */
  function FuseLabel(hardReject: bool, predicted: string): (r: string)
    ensures r in FinalLabels
    ensures r == "Eligible" <==> predicted == "Eligible" || (!hardReject && predicted == "ELIGIBLE")
    ensures r == "High Risk" <==> !hardReject && predicted in HighRiskSpellings
  {
    if hardReject && predicted != "Eligible" then "Not Eligible"
    else if predicted in EligibleSpellings then "Eligible"
    else if predicted in HighRiskSpellings then "High Risk"
    else "Not Eligible"
  }

  /** Under the hard rules, anything except the exact label "Eligible" is "Not Eligible". */
  lemma HardRejectDominates(predicted: string)
    requires predicted != "Eligible"
    ensures FuseLabel(true, predicted) == "Not Eligible"
  {
  }

  /** Labels are matched exactly: other casings and spellings fall to "Not Eligible". */
  lemma FuseLabelIsCaseSensitive(hardReject: bool)
    ensures FuseLabel(hardReject, "eligible") == "Not Eligible"
    ensures FuseLabel(hardReject, "high risk") == "Not Eligible"
    ensures FuseLabel(true, "ELIGIBLE") == "Not Eligible"
    ensures FuseLabel(true, "High Risk") == "Not Eligible"
    ensures FuseLabel(hardReject, "Eligible") == "Eligible"
    ensures FuseLabel(false, "ELIGIBLE") == "Eligible"
    ensures FuseLabel(false, "High_Risk") == "High Risk" && FuseLabel(false, "HIGH_RISK") == "High Risk"
  {
  }

  /** predict_emi: derive the features, apply the hard rules, consult both models and fuse. */
  function PredictEmi(raw: ApplicantRecord, classifier: FeatureRow -> string, regressor: FeatureRow -> real): (r: Prediction)
    requires raw.monthlySalary > 0.0
    ensures r.eligibilityLabel in FinalLabels
    ensures r.maxEmi >= 0.0
    ensures var row := PrepareInputFeatures(raw);
      && r.maxEmi == ClampEmi(regressor(row))
      && r.eligibilityLabel == FuseLabel(HardReject(row), classifier(row))
  {
    var row := PrepareInputFeatures(raw);
    var hardReject := HardReject(row);
    Prediction(FuseLabel(hardReject, classifier(row)), ClampEmi(regressor(row)))
  }

  /** The EMI estimate does not depend on the classifier, hence not on the label. */
  lemma MaxEmiIndependentOfLabel(raw: ApplicantRecord, c1: FeatureRow -> string, c2: FeatureRow -> string, regressor: FeatureRow -> real)
    requires raw.monthlySalary > 0.0
    ensures PredictEmi(raw, c1, regressor).maxEmi == PredictEmi(raw, c2, regressor).maxEmi
    ensures regressor(PrepareInputFeatures(raw)) >= 0.0 ==> PredictEmi(raw, c1, regressor).maxEmi == regressor(PrepareInputFeatures(raw))
  {
  }

  /** EMIs above three quarters of the salary force "Not Eligible" unless the classifier says exactly "Eligible". */
  lemma HeavyDebtRejects(raw: ApplicantRecord, classifier: FeatureRow -> string, regressor: FeatureRow -> real)
    requires raw.monthlySalary > 0.0
    requires raw.currentEmiAmount > 0.75 * raw.monthlySalary
    requires classifier(PrepareInputFeatures(raw)) != "Eligible"
    ensures PredictEmi(raw, classifier, regressor).eligibilityLabel == "Not Eligible"
  {
  }

  /** The form's defaults with an "Eligible" classifier and an EMI estimate of 8000. */
  lemma FormDefaultsPrediction()
    ensures PredictEmi(FormDefaults, _ => "Eligible", _ => 8000.0) == Prediction("Eligible", 8000.0)
  {
  }

  /** A credit score of 400 trips the hard rules, so a "High Risk" classifier yields "Not Eligible" whatever the EMI estimate. */
  lemma LowCreditScorePrediction(regressor: FeatureRow -> real)
    ensures PredictEmi(FormDefaults.(creditScore := 400), _ => "High Risk", regressor).eligibilityLabel == "Not Eligible"
  {
  }

  /** The form's defaults do not trip the hard rules: 0 EMI and 52% of the salary in expenses, score 700. */
  lemma FormDefaultsPassHardRules()
    ensures !HardReject(PrepareInputFeatures(FormDefaults))
  {
  }
}
