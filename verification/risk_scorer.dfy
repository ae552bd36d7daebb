/** The rule-based half of the risk-assessment service: the RiskAssessment
    record with its score-to-level thresholds, the input features and their
    validation, the piecewise rule score and the per-factor contribution
    tables. The random-forest path is an oracle: its prediction is a
    parameter. */
module RiskScoring {
  import opened Wrappers
  import opened Exceptions
  import opened Amounts
  import Borrowers

  datatype RiskLevel = Low | Medium | High

  datatype AlgorithmUsed = RandomForest | RuleBase

  /** The account standing the scorer reads (the seven-value AccountStatus
      of the shared constants, not the loan account's own status). */
  datatype AccountStanding = Current | Delinquent | Partial | Default | PaidOff | ChargedOff | Settled

  /** Level boundaries (also LOW_RISK_MAX / MEDIUM_RISK_MAX in the shared constants). */
  const LowThreshold: real := 0.33
  const MediumThreshold: real := 0.67

  datatype RiskAssessment = RiskAssessment(
    assessmentId: int,
    accountId: int,
    borrowerId: int,
    riskScore: real,
    riskLevel: RiskLevel,
    algorithmUsed: AlgorithmUsed,
    riskFactors: map<string, real>,
    assessmentDate: int,
    createdAt: int)

  /** The position of a level in Low < Medium < High. */
  function Rank(l: RiskLevel): (n: nat)
    ensures n <= 2
  {
    match l
    case Low => 0
    case Medium => 1
    case High => 2
  }

  function DetermineRiskLevel(score: real): (l: RiskLevel) {
    if score < LowThreshold then Low
    else if score < MediumThreshold then Medium
    else High
  }

  /** The level is a monotone step function of the score with steps at 0.33 and 0.67. */
  lemma LevelMonotone(s1: real, s2: real)
    requires s1 <= s2
    ensures Rank(DetermineRiskLevel(s1)) <= Rank(DetermineRiskLevel(s2))
    ensures DetermineRiskLevel(s1) == High ==> DetermineRiskLevel(s2) == High
    ensures DetermineRiskLevel(s2) == Low ==> DetermineRiskLevel(s1) == Low
  {
  }

  /** Each level covers one interval of [0, 1]. */
  lemma LevelIntervals(score: real)
    requires 0.0 <= score <= 1.0
    ensures DetermineRiskLevel(score) == Low <==> 0.0 <= score < LowThreshold
    ensures DetermineRiskLevel(score) == Medium <==> LowThreshold <= score < MediumThreshold
    ensures DetermineRiskLevel(score) == High <==> MediumThreshold <= score <= 1.0
  {
  }

  /** The constructor: a score outside [0, 1] is rejected; the level is
      derived from the score; no id and no factors yet. */
  function NewAssessment(accountId: int, borrowerId: int, score: real, algorithm: AlgorithmUsed, now: int): (r: Result<RiskAssessment, Exception>)
    ensures r.Ok? <==> 0.0 <= score <= 1.0
    ensures r.Err? ==> r.error == Invalid("Risk score must be between 0 and 1", "riskScore")
    ensures r.Ok? ==> var a := r.value;
                      a.assessmentId == 0 && a.accountId == accountId && a.borrowerId == borrowerId &&
                      a.riskScore == score && a.algorithmUsed == algorithm && a.riskFactors == map[] &&
                      a.riskLevel == DetermineRiskLevel(score) && a.assessmentDate == now && a.createdAt == now
  {
    if score < 0.0 || score > 1.0 then Err(Invalid("Risk score must be between 0 and 1", "riskScore"))
    else Ok(RiskAssessment(0, accountId, borrowerId, score, DetermineRiskLevel(score), algorithm, map[], now, now))
  }

  /** addRiskFactor: sets (or overwrites) one factor and refreshes the assessment date. */
  function AddRiskFactor(a: RiskAssessment, name: string, contribution: real, now: int): (r: RiskAssessment)
    ensures name in r.riskFactors && r.riskFactors[name] == contribution
    ensures forall k :: k in a.riskFactors && k != name ==> k in r.riskFactors && r.riskFactors[k] == a.riskFactors[k]
    ensures r.riskFactors.Keys == a.riskFactors.Keys + {name}
    ensures r.(riskFactors := a.riskFactors, assessmentDate := a.assessmentDate) == a
    ensures r.assessmentDate == now
  {
    a.(riskFactors := a.riskFactors[name := contribution], assessmentDate := now)
  }

  function RiskLevelToString(l: RiskLevel): (s: string)
    ensures s in {"Low", "Medium", "High"}
  {
    match l
    case Low => "Low"
    case Medium => "Medium"
    case High => "High"
  }

  /** Unknown level names fall back to Medium instead of failing. */
  function StringToRiskLevel(s: string): (l: RiskLevel)
    ensures s !in {"Low", "Medium", "High"} ==> l == Medium
  {
    if s == "Low" then Low
    else if s == "Medium" then Medium
    else if s == "High" then High
    else Medium
  }

  lemma RiskLevelCodec(l: RiskLevel, s: string)
    ensures StringToRiskLevel(RiskLevelToString(l)) == l
    ensures s in {"Low", "Medium", "High"} ==> RiskLevelToString(StringToRiskLevel(s)) == s
  {
  }

  /** The scorer's input. */
  datatype RiskFeatures = RiskFeatures(
    accountId: int,
    borrowerId: int,
    loanAmount: Money,
    remainingAmount: Money,
    interestRate: real,
    daysPastDue: int,
    numberOfMissedPayments: int,
    loanTermMonths: int,
    accountStatus: AccountStanding,
    monthlyIncome: Money,
    employmentStatus: Borrowers.EmploymentStatus,
    accountAgeMonths: int,
    debtToIncomeRatio: real)

  /** RiskFeatures::validate: the first failing check, in the order ids,
      amounts, interest rate. */
  function ValidateFeatures(f: RiskFeatures): (r: Outcome<Exception>)
    ensures r.Pass? <==> f.accountId > 0 && f.borrowerId > 0 && 0.0 <= f.interestRate <= 1.0
    ensures f.accountId <= 0 ==> r == Fail(Invalid("Invalid account ID", "accountId"))
    ensures f.accountId > 0 && f.borrowerId <= 0 ==> r == Fail(Invalid("Invalid borrower ID", "borrowerId"))
    ensures f.accountId > 0 && f.borrowerId > 0 && !(0.0 <= f.interestRate <= 1.0) ==>
              r == Fail(Invalid("Interest rate out of range", "interestRate"))
  {
    if f.accountId <= 0 then Fail(Invalid("Invalid account ID", "accountId"))
    else if f.borrowerId <= 0 then Fail(Invalid("Invalid borrower ID", "borrowerId"))
    else if f.loanAmount < 0.0 || f.remainingAmount < 0.0 then Fail(Invalid("Negative amounts", "loanAmount"))
    else if f.interestRate < 0.0 || f.interestRate > 1.0 then Fail(Invalid("Interest rate out of range", "interestRate"))
    else Pass
  }

  /** Amounts are Money, which is never negative, so "Negative amounts" is never reported. */
  lemma NegativeAmountsNeverReported(f: RiskFeatures)
    ensures ValidateFeatures(f) != Fail(Invalid("Negative amounts", "loanAmount"))
  {
  }

  function Min(a: real, b: real): real {
    if a <= b then a else b
  }

  function Max(a: real, b: real): real {
    if a >= b then a else b
  }

  /** The overdue part of the rule score: three steps, linear below 30 days. */
  function DaysPastDuePart(dpd: int): (r: real)
    ensures dpd >= 0 ==> 0.0 <= r <= 0.40
    ensures dpd >= 30 ==> r >= 0.20
    ensures dpd < 30 ==> r < 0.20
  {
    if dpd >= 90 then 0.40
    else if dpd >= 60 then 0.30
    else if dpd >= 30 then 0.20
    else dpd as real / 90.0 * 0.20
  }

  /** More days overdue never lower the overdue part. */
  lemma DaysPastDuePartMonotone(d1: int, d2: int)
    requires d1 <= d2
    ensures DaysPastDuePart(d1) <= DaysPastDuePart(d2)
  {
  }

  /** The missed-payment part: ten points per miss, capped at thirty. */
  function MissedPaymentsPart(n: int): (r: real)
    ensures r <= 0.30
    ensures n >= 0 ==> r >= 0.0
    ensures 0 <= n <= 3 ==> r == n as real * 0.10
  {
    Min(0.30, n as real * 0.10)
  }

  /** remaining / (loan + 1e-6): the guard term keeps the divisor positive. */
  function DebtRatio(remaining: Money, loan: Money): (r: real)
    ensures r >= 0.0
    ensures remaining <= loan ==> r < 1.0
  {
    remaining / (loan + 0.000001)
  }

  function EmploymentRiskContribution(s: Borrowers.EmploymentStatus): (r: real)
    ensures r in {0.0, 0.05, 0.10}
  {
    match s
    case Employed | Contract | SelfEmployed => 0.0
    case PartTime | Student => 0.05
    case Unemployed | Retired | None => 0.10
  }

  function AccountRiskContribution(s: AccountStanding): (r: real)
    ensures r in {0.0, 0.02, 0.04, 0.06, 0.10}
  {
    match s
    case PaidOff | Current => 0.0
    case Partial => 0.02
    case Settled => 0.04
    case Delinquent => 0.06
    case Default | ChargedOff => 0.10
  }

  /** The feature encodings the random forest reads (1 = safest, 0 = riskiest). */
  function EncodeEmploymentStatus(s: Borrowers.EmploymentStatus): (r: real)
    ensures 0.0 <= r <= 1.0
  {
    match s
    case Employed | Contract | SelfEmployed => 1.0
    case PartTime | Student => 0.5
    case Unemployed | Retired | None => 0.0
  }

  function EncodeAccountStatus(s: AccountStanding): (r: real)
    ensures 0.0 <= r <= 1.0
  {
    match s
    case PaidOff | Current => 1.0
    case Partial => 0.8
    case Settled => 0.6
    case Delinquent => 0.4
    case Default | ChargedOff => 0.0
  }

  /** The rule tables and the model encodings agree: a status contributes
      one tenth of its distance from the safest encoding. */
  lemma ContributionsMirrorEncodings(e: Borrowers.EmploymentStatus, a: AccountStanding)
    ensures EmploymentRiskContribution(e) == (1.0 - EncodeEmploymentStatus(e)) * 0.10
    ensures AccountRiskContribution(a) == (1.0 - EncodeAccountStatus(a)) * 0.10
  {
  }

  /** calculateRuleBasedScore: the sum of the five parts, capped at 1. */
  function RuleBasedScore(f: RiskFeatures): (r: real)
    ensures r <= 1.0
    ensures f.daysPastDue >= 0 && f.numberOfMissedPayments >= 0 ==> r >= 0.0
    ensures f.daysPastDue >= 90 && f.numberOfMissedPayments >= 6 ==> r >= 0.70
  {
    Min(1.0, DaysPastDuePart(f.daysPastDue) + MissedPaymentsPart(f.numberOfMissedPayments)
             + DebtRatio(f.remainingAmount, f.loanAmount) * 0.20
             + EmploymentRiskContribution(f.employmentStatus) + AccountRiskContribution(f.accountStatus))
  }

  /** Worse payment history never lowers the rule score. */
  lemma RuleScoreMonotone(f: RiskFeatures, dpd: int, missed: int)
    requires f.daysPastDue <= dpd && f.numberOfMissedPayments <= missed
    ensures RuleBasedScore(f) <= RuleBasedScore(f.(daysPastDue := dpd, numberOfMissedPayments := missed))
  {
    DaysPastDuePartMonotone(f.daysPastDue, dpd);
  }

  /** A clean account (current, employed, nothing owed or overdue) scores 0 and is Low risk. */
  lemma CleanAccountIsLowRisk(f: RiskFeatures)
    requires f.daysPastDue == 0 && f.numberOfMissedPayments == 0 && f.remainingAmount == 0.0
    requires f.employmentStatus == Borrowers.Employed && f.accountStatus == Current
    ensures RuleBasedScore(f) == 0.0 && DetermineRiskLevel(RuleBasedScore(f)) == Low
  {
  }

  /** std::max(0.0, std::min(1.0, x)). */
  function Clamp(x: real): (r: real)
    ensures 0.0 <= r <= 1.0
    ensures 0.0 <= x <= 1.0 ==> r == x
  {
    Max(0.0, Min(1.0, x))
  }

  const FactorKeys: set<string> := {"days_past_due", "missed_payments", "debt_ratio", "employment", "account_status"}

  /** Normalisation ceilings of the contribution report. */
  const MaxDaysPastDue: real := 365.0
  const MaxMissedPayments: real := 12.0

  /** calculateFeatureContributions: one entry per factor of the rule score. */
  function FeatureContributions(f: RiskFeatures): (r: map<string, real>)
    ensures r.Keys == FactorKeys
    ensures r["employment"] == EmploymentRiskContribution(f.employmentStatus)
    ensures r["account_status"] == AccountRiskContribution(f.accountStatus)
  {
    map["days_past_due" := f.daysPastDue as real / MaxDaysPastDue * 0.4,
        "missed_payments" := f.numberOfMissedPayments as real / MaxMissedPayments * 0.3,
        "debt_ratio" := DebtRatio(f.remainingAmount, f.loanAmount) * 0.2,
        "employment" := EmploymentRiskContribution(f.employmentStatus),
        "account_status" := AccountRiskContribution(f.accountStatus)]
  }

  /** The scorer's configuration: whether the model path is usable
      (ML switched on, trained and present) and, if so, what it predicts. */
  datatype Scorer = Scorer(mlReady: bool, predict: RiskFeatures -> real)

  /** assessRisk: validate, score by model or rules, clamp, build the
      assessment and attach the five factors. */
  function AssessRisk(sc: Scorer, f: RiskFeatures, now: int): (r: Result<RiskAssessment, Exception>)
    ensures r.Err? <==> ValidateFeatures(f).Fail?
    ensures r.Err? ==> r.error == ValidateFeatures(f).error
    ensures r.Ok? ==> 0.0 <= r.value.riskScore <= 1.0 && r.value.riskLevel == DetermineRiskLevel(r.value.riskScore)
    ensures r.Ok? ==> r.value.algorithmUsed == (if sc.mlReady then RandomForest else RuleBase)
    ensures r.Ok? ==> r.value.riskScore == Clamp(if sc.mlReady then sc.predict(f) else RuleBasedScore(f))
    ensures r.Ok? ==> r.value.accountId == f.accountId && r.value.borrowerId == f.borrowerId
    ensures r.Ok? ==> r.value.riskFactors == FeatureContributions(f) && r.value.riskFactors.Keys == FactorKeys
  {
    match ValidateFeatures(f)
    case Fail(e) => Err(e)
    case Pass =>
      var raw := if sc.mlReady then sc.predict(f) else RuleBasedScore(f);
      var algorithm := if sc.mlReady then RandomForest else RuleBase;
      Ok(Assemble(f.accountId, f.borrowerId, Clamp(raw), algorithm, FeatureContributions(f), now))
  }

  /** The tail of assessRisk: construct the assessment and attach every factor. */
  function Assemble(accountId: int, borrowerId: int, score: real, algorithm: AlgorithmUsed,
                    factors: map<string, real>, now: int): (a: RiskAssessment)
    requires 0.0 <= score <= 1.0 && factors.Keys == FactorKeys
    ensures a.accountId == accountId && a.borrowerId == borrowerId && a.assessmentId == 0
    ensures a.riskScore == score && a.riskLevel == DetermineRiskLevel(score) && a.algorithmUsed == algorithm
    ensures a.riskFactors == factors
  {
    var a := NewAssessment(accountId, borrowerId, score, algorithm, now).value;
    AllFactorsAttached(a, factors, now);
    AddFactors(a, FactorOrder, factors, now)
  }

  /** The factor keys in the order std::map iterates them (sorted). */
  const FactorOrder: seq<string> := ["account_status", "days_past_due", "debt_ratio", "employment", "missed_payments"]

  /** The loop over the contribution map: one addRiskFactor per key, in order. */
  function AddFactors(a: RiskAssessment, keys: seq<string>, factors: map<string, real>, now: int): (r: RiskAssessment)
    requires forall i :: 0 <= i < |keys| ==> keys[i] in factors
    ensures forall k :: k in r.riskFactors <==> k in a.riskFactors || k in keys
    ensures forall k :: k in keys ==> r.riskFactors[k] == factors[k]
    ensures forall k :: k in a.riskFactors && k !in keys ==> r.riskFactors[k] == a.riskFactors[k]
    ensures r.(riskFactors := a.riskFactors, assessmentDate := a.assessmentDate) == a
    ensures r.assessmentDate == if keys == [] then a.assessmentDate else now
    decreases |keys|
  {
    if keys == [] then a
    else AddFactors(AddRiskFactor(a, keys[0], factors[keys[0]], now), keys[1..], factors, now)
  }

  /** The loop order lists exactly the five factor names. */
  lemma FactorOrderCoversKeys()
    ensures forall k :: k in FactorOrder <==> k in FactorKeys
  {
    assert FactorOrder[0] == "account_status" && FactorOrder[1] == "days_past_due";
    assert FactorOrder[2] == "debt_ratio" && FactorOrder[3] == "employment" && FactorOrder[4] == "missed_payments";
  }

  /** Starting from no factors, the loop leaves exactly the contribution map behind. */
  lemma AllFactorsAttached(a: RiskAssessment, factors: map<string, real>, now: int)
    requires a.riskFactors == map[] && factors.Keys == FactorKeys
    ensures forall i :: 0 <= i < |FactorOrder| ==> FactorOrder[i] in factors
    ensures AddFactors(a, FactorOrder, factors, now).riskFactors == factors
    ensures AddFactors(a, FactorOrder, factors, now).assessmentDate == now
  {
    FactorOrderCoversKeys();
    assert forall i :: 0 <= i < |FactorOrder| ==> FactorOrder[i] in FactorOrder;
    var r := AddFactors(a, FactorOrder, factors, now);
    SameMap(r.riskFactors, factors);
  }

  lemma SameMap(m1: map<string, real>, m2: map<string, real>)
    requires forall k :: k in m1 <==> k in m2
    requires forall k :: k in m1 ==> m1[k] == m2[k]
    ensures m1 == m2
  {
  }

  /** Clamping makes the construction inside assessRisk total: whatever
      the rules or the model produce, no exception escapes for valid features. */
  lemma AssessRiskNeverRejectsScore(sc: Scorer, f: RiskFeatures, now: int)
    requires ValidateFeatures(f).Pass?
    ensures AssessRisk(sc, f, now).Ok?
    ensures forall x: real :: NewAssessment(f.accountId, f.borrowerId, Clamp(x), RuleBase, now).Ok?
  {
  }
}
