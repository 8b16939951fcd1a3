/**
  Feature derivation for one loan applicant: the expense total, three income
  ratios, the credit-risk bucket and the employment-stability score that are
  added to the applicant's record before the models are consulted.
 */
module FeatureBuilder {
  import opened Wrappers

  /** One applicant as the prediction form collects it (25 named fields). */
  datatype ApplicantRecord = ApplicantRecord(
    age: int,
    gender: string,
    maritalStatus: string,
    education: string,
    monthlySalary: real,
    employmentType: string,
    yearsOfEmployment: int,
    companyType: string,
    houseType: string,
    monthlyRent: real,
    familySize: int,
    dependents: int,
    schoolFees: real,
    collegeFees: real,
    travelExpenses: real,
    groceriesUtilities: real,
    otherMonthlyExpenses: real,
    existingLoans: string,
    currentEmiAmount: real,
    creditScore: int,
    bankBalance: real,
    emergencyFund: real,
    emiScenario: string,
    requestedAmount: real,
    requestedTenure: int)

  datatype CreditRiskBucket = Low | Medium | High

  /** The one-row frame handed to the models: the applicant's own columns, untouched, plus the derived ones. */
  datatype FeatureRow = FeatureRow(
    applicant: ApplicantRecord,
    totalMonthlyExpenses: real,
    debtToIncome: real,
    expenseToIncome: real,
    savingsRatio: real,
    creditRiskBucket: Option<CreditRiskBucket>,
    employmentStabilityScore: Option<real>)

  // ---------------------------------------------------------------------------
  // Expense aggregation
  // ---------------------------------------------------------------------------

  /** The six expense columns, in the order they are added: school, college, travel, groceries, other, rent. */
  function ExpenseComponents(a: ApplicantRecord): (s: seq<real>)
    ensures |s| == 6
  {
    [a.schoolFees, a.collegeFees, a.travelExpenses, a.groceriesUtilities, a.otherMonthlyExpenses, a.monthlyRent]
  }

  /** Left-to-right sum of a column list: the reference the expense total is checked against. */
  function Sum(s: seq<real>): (r: real)
  {
    if s == [] then 0.0 else Sum(s[..|s| - 1]) + s[|s| - 1]
  }

  predicate AllNonNegative(s: seq<real>)
  {
    forall i :: 0 <= i < |s| ==> s[i] >= 0.0
  }

  lemma {:induction false} SumNonNegative(s: seq<real>)
    requires AllNonNegative(s)
    ensures Sum(s) >= 0.0
  {
    if s != [] {
      assert AllNonNegative(s[..|s| - 1]);
      SumNonNegative(s[..|s| - 1]);
    }
  }

  /** With no negative term, every term is at most the sum. */
  lemma {:induction false} SumBoundsTerm(s: seq<real>, k: nat)
    requires AllNonNegative(s) && k < |s|
    ensures s[k] <= Sum(s)
  {
    var init := s[..|s| - 1];
    assert AllNonNegative(init);
    if k == |s| - 1 {
      SumNonNegative(init);
    } else {
      SumBoundsTerm(init, k);
    }
  }

  /** The total_monthly_expenses column: the six expense columns added together. */
  function TotalMonthlyExpenses(a: ApplicantRecord): (r: real)
    ensures r == Sum(ExpenseComponents(a))
  {
    var s := ExpenseComponents(a);
    assert Sum(s[..1]) == a.schoolFees by { assert s[..1][..0] == []; }
    assert Sum(s[..2]) == Sum(s[..1]) + a.collegeFees by { assert s[..2][..1] == s[..1]; }
    assert Sum(s[..3]) == Sum(s[..2]) + a.travelExpenses by { assert s[..3][..2] == s[..2]; }
    assert Sum(s[..4]) == Sum(s[..3]) + a.groceriesUtilities by { assert s[..4][..3] == s[..3]; }
    assert Sum(s[..5]) == Sum(s[..4]) + a.otherMonthlyExpenses by { assert s[..5][..4] == s[..4]; }
    assert Sum(s) == Sum(s[..5]) + a.monthlyRent by { assert s[..5] == s[..|s| - 1]; }
    a.schoolFees + a.collegeFees + a.travelExpenses + a.groceriesUtilities + a.otherMonthlyExpenses + a.monthlyRent
  }

  /** With non-negative expenses the total is non-negative and bounds each expense. */
  lemma TotalMonthlyExpensesBounds(a: ApplicantRecord)
    requires AllNonNegative(ExpenseComponents(a))
    ensures TotalMonthlyExpenses(a) >= 0.0
    ensures forall k :: 0 <= k < 6 ==> ExpenseComponents(a)[k] <= TotalMonthlyExpenses(a)
  {
    SumNonNegative(ExpenseComponents(a));
    forall k | 0 <= k < 6
      ensures ExpenseComponents(a)[k] <= TotalMonthlyExpenses(a)
    {
      SumBoundsTerm(ExpenseComponents(a), k);
    }
  }

  // ---------------------------------------------------------------------------
  // Financial ratios
  // ---------------------------------------------------------------------------

  /** An amount divided by the monthly salary (exact rational division). */
  function Ratio(amount: real, salary: real): (r: real)
    requires salary > 0.0
    ensures r * salary == amount
    ensures r >= 0.0 <==> amount >= 0.0
    ensures r == 0.0 <==> amount == 0.0
  {
    amount / salary
  }

  /** A ratio exceeds a bound exactly when the amount exceeds that share of the salary. */
  lemma RatioExceeds(amount: real, salary: real, bound: real)
    requires salary > 0.0
    ensures Ratio(amount, salary) > bound <==> amount > bound * salary
  {
  }

  // ---------------------------------------------------------------------------
  // Credit-risk bucket (pandas cut with right-closed bins)
  // ---------------------------------------------------------------------------

  predicate StrictlyIncreasing(edges: seq<real>)
  {
    forall i, j :: 0 <= i < j < |edges| ==> edges[i] < edges[j]
  }

  /**
    The bin index pandas cut assigns to x with the default right=True and
    include_lowest=False: bin i is the half-open interval (edges[i], edges[i+1]].
    A value in no bin is missing.
   */
  function Cut(x: real, edges: seq<real>): (r: Option<nat>)
    ensures r.Some? ==> r.value + 1 < |edges| && edges[r.value] < x <= edges[r.value + 1]
    ensures r.None? ==> forall i :: 0 <= i < |edges| - 1 ==> !(edges[i] < x <= edges[i + 1])
    decreases |edges|
  {
    if |edges| < 2 then None
    else if edges[0] < x <= edges[1] then Some(0)
    else
      match Cut(x, edges[1..])
      case Some(i) => Some(i + 1)
      case None => None
  }

  /** Over increasing edges a value gets a bin exactly when it lies in (first edge, last edge]. */
  lemma {:induction false} CutDefinedInRange(x: real, edges: seq<real>)
    requires |edges| >= 2 && StrictlyIncreasing(edges)
    ensures Cut(x, edges).Some? <==> edges[0] < x <= edges[|edges| - 1]
  {
    if Cut(x, edges).Some? {
      var i := Cut(x, edges).value;
      assert edges[0] <= edges[i] && edges[i + 1] <= edges[|edges| - 1];
    } else if edges[1] < x <= edges[|edges| - 1] {
      CutDefinedInRange(x, edges[1..]);
    }
  }

  /** Over increasing edges a larger value never lands in an earlier bin. */
  lemma CutMonotone(x: real, y: real, edges: seq<real>)
    requires StrictlyIncreasing(edges) && x <= y
    requires Cut(x, edges).Some? && Cut(y, edges).Some?
    ensures Cut(x, edges).value <= Cut(y, edges).value
  {
  }

  const CreditBins: seq<real> := [0.0, 600.0, 700.0, 900.0]
  const CreditLabels: seq<CreditRiskBucket> := [Low, Medium, High]

  /** The credit_risk_bucket column: the credit score cut into the three labelled bins. */
  function CreditRiskBucketOf(score: int): (r: Option<CreditRiskBucket>)
    ensures r.None? <==> score <= 0 || score > 900
  {
    CutDefinedInRange(score as real, CreditBins);
    match Cut(score as real, CreditBins)
    case None => None
    case Some(i) => Some(CreditLabels[i])
  }

  /** The bucket of every score, bin by bin, both directions; 600 is Low and 700 is Medium. */
  lemma CreditRiskBucketBins(score: int)
    ensures CreditRiskBucketOf(score) == Some(Low) <==> 0 < score <= 600
    ensures CreditRiskBucketOf(score) == Some(Medium) <==> 600 < score <= 700
    ensures CreditRiskBucketOf(score) == Some(High) <==> 700 < score <= 900
  {
  }

  /** Over increasing edges the bin of x is the only bin containing it. */
  lemma CutUnique(x: real, edges: seq<real>, k: nat)
    requires StrictlyIncreasing(edges) && k + 1 < |edges|
    requires edges[k] < x <= edges[k + 1]
    ensures Cut(x, edges) == Some(k)
  {
  }

  function Rank(b: CreditRiskBucket): (r: nat)
  {
    match b
    case Low => 0
    case Medium => 1
    case High => 2
  }

  /** A higher credit score never yields a lower bucket. */
  lemma CreditRiskBucketMonotone(s1: int, s2: int)
    requires s1 <= s2
    requires CreditRiskBucketOf(s1).Some? && CreditRiskBucketOf(s2).Some?
    ensures Rank(CreditRiskBucketOf(s1).value) <= Rank(CreditRiskBucketOf(s2).value)
  {
  }

  // ---------------------------------------------------------------------------
  // Employment stability score
  // ---------------------------------------------------------------------------

  /** The weight dictionary the employment type is mapped through. */
  const EmploymentWeights: map<string, real> := map["Government" := 1.5, "Private" := 1.0, "Self-employed" := 0.8]

  /** The employment_stability_score column; an employment type outside the dictionary leaves it missing. */
  function EmploymentStabilityScore(years: int, employmentType: string): (r: Option<real>)
    ensures r.Some? <==> employmentType in {"Government", "Private", "Self-employed"}
    ensures r.Some? && years >= 0 ==> 0.8 * years as real <= r.value <= 1.5 * years as real
  {
    if employmentType in EmploymentWeights then Some(years as real * EmploymentWeights[employmentType]) else None
  }

  /** The score per employment type. */
  lemma EmploymentStabilityScoreByType(years: int, employmentType: string)
    ensures employmentType == "Government" ==> EmploymentStabilityScore(years, employmentType) == Some(1.5 * years as real)
    ensures employmentType == "Private" ==> EmploymentStabilityScore(years, employmentType) == Some(years as real)
    ensures employmentType == "Self-employed" ==> EmploymentStabilityScore(years, employmentType) == Some(0.8 * years as real)
  {
  }

  // ---------------------------------------------------------------------------
  // The whole derivation
  // ---------------------------------------------------------------------------

  /** prepare_input_features: the applicant's record with the derived columns added. */
  function PrepareInputFeatures(a: ApplicantRecord): (r: FeatureRow)
    requires a.monthlySalary > 0.0
    ensures r.applicant == a
    ensures r.totalMonthlyExpenses == Sum(ExpenseComponents(a))
    ensures r.debtToIncome * a.monthlySalary == a.currentEmiAmount
    ensures r.expenseToIncome * a.monthlySalary == r.totalMonthlyExpenses
    ensures r.savingsRatio * a.monthlySalary == a.bankBalance
    ensures r.creditRiskBucket == CreditRiskBucketOf(a.creditScore)
    ensures r.employmentStabilityScore == EmploymentStabilityScore(a.yearsOfEmployment, a.employmentType)
  {
    var total := TotalMonthlyExpenses(a);
    FeatureRow(
      a,
      total,
      Ratio(a.currentEmiAmount, a.monthlySalary),
      Ratio(total, a.monthlySalary),
      Ratio(a.bankBalance, a.monthlySalary),
      CreditRiskBucketOf(a.creditScore),
      EmploymentStabilityScore(a.yearsOfEmployment, a.employmentType))
  }

  /** With non-negative amounts every derived amount and ratio is non-negative, and no EMI means no debt ratio. */
  lemma PrepareInputFeaturesNonNegative(a: ApplicantRecord)
    requires a.monthlySalary > 0.0
    requires AllNonNegative(ExpenseComponents(a)) && a.currentEmiAmount >= 0.0 && a.bankBalance >= 0.0
    ensures var r := PrepareInputFeatures(a);
      && r.totalMonthlyExpenses >= 0.0
      && r.debtToIncome >= 0.0 && r.expenseToIncome >= 0.0 && r.savingsRatio >= 0.0
      && (r.debtToIncome == 0.0 <==> a.currentEmiAmount == 0.0)
  {
    TotalMonthlyExpensesBounds(a);
  }

  /** The prediction form's default answers: each number field's default and each selection's first option. */
  const FormDefaults: ApplicantRecord := ApplicantRecord(
    30, "Male", "Single", "High School", 50000.0, "Private", 5, "Startup", "Rented", 10000.0,
    3, 1, 0.0, 0.0, 3000.0, 8000.0, 5000.0, "Yes", 0.0, 700, 200000.0, 100000.0,
    "E-commerce Shopping EMI", 300000.0, 24)

  lemma FormDefaultsFeatures()
    ensures var r := PrepareInputFeatures(FormDefaults);
      && r.totalMonthlyExpenses == 26000.0
      && r.debtToIncome == 0.0
      && r.expenseToIncome == 0.52
      && r.savingsRatio == 4.0
      && r.creditRiskBucket == Some(Medium)
      && r.employmentStabilityScore == Some(5.0)
  {
  }
}
