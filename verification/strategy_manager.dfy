/** StrategyManager: turns a risk picture into a recovery strategy, runs
    it, and keeps the strategies still in progress, keyed by account. The
    random forest and k-means models are oracles inside the manager. */
module StrategyManagers {
  import opened Wrappers
  import opened Exceptions
  import opened Amounts
  import opened RiskScoring
  import opened Strategies

  datatype Manager = Manager(
    modelsTrained: bool,
    scorer: Scorer,
    cluster: seq<real> -> int,
    active: map<int, Strategy>)

  datatype AnalysisResult = AnalysisResult(
    riskScore: real,
    riskLevel: RiskLevel,
    clusterId: int,
    recommendedStrategy: StrategyType)

  function ManagerError(message: string): Exception {
    Invalid(message, "StrategyManager")
  }

  /** The constructor: both collaborators are required; nothing trained, nothing active. */
  function NewManager(hasChecker: bool, hasCommunication: bool, scorer: Scorer, cluster: seq<real> -> int): (r: Result<Manager, Exception>)
    ensures r.Ok? <==> hasChecker && hasCommunication
    ensures !hasChecker ==> r == Err(ManagerError("Payment Checker cannot be null"))
    ensures hasChecker && !hasCommunication ==> r == Err(ManagerError("Communication Service cannot be null"))
    ensures r.Ok? ==> !r.value.modelsTrained && r.value.active == map[]
  {
    if !hasChecker then Err(ManagerError("Payment Checker cannot be null"))
    else if !hasCommunication then Err(ManagerError("Communication Service cannot be null"))
    else Ok(Manager(false, scorer, cluster, map[]))
  }

  /** trainModels: trains the forest (which switches the scorer to it) and the clusters. */
  function TrainModels(m: Manager): (r: Manager)
    ensures AreModelsReady(r) && r.active == m.active
  {
    m.(modelsTrained := true, scorer := m.scorer.(mlReady := true))
  }

  predicate AreModelsReady(m: Manager) {
    m.modelsTrained && m.scorer.mlReady
  }

  /** clusterToRiskLevel: clusters 0, 1, 2 are Low, Medium, High. */
  function ClusterToRiskLevel(clusterId: int): (r: Result<RiskLevel, Exception>)
    ensures r.Ok? <==> 0 <= clusterId <= 2
    ensures r.Ok? ==> Rank(r.value) == clusterId
    ensures r.Err? ==> r.error == ManagerError("Unknown cluster ID to convert to Risk Level")
  {
    if clusterId == 0 then Ok(Low)
    else if clusterId == 1 then Ok(Medium)
    else if clusterId == 2 then Ok(High)
    else Err(ManagerError("Unknown cluster ID to convert to Risk Level"))
  }

  /** The higher of two levels in Low < Medium < High. */
  function MaxLevel(a: RiskLevel, b: RiskLevel): (r: RiskLevel)
    ensures Rank(r) >= Rank(a) && Rank(r) >= Rank(b)
    ensures r == a || r == b
  {
    if Rank(a) >= Rank(b) then a else b
  }

  /** combineAnalysis: High if either view says High, else Medium if either says Medium, else Low. */
  function CombineAnalysis(riskScore: real, clusterId: int): (r: Result<RiskLevel, Exception>)
    ensures r.Ok? <==> 0 <= clusterId <= 2
    ensures r.Err? ==> r == Err(ManagerError("Unknown cluster ID to convert to Risk Level"))
  {
    var scoreLevel := if riskScore < 0.33 then Low else if riskScore < 0.67 then Medium else High;
    var clusterLevel :- ClusterToRiskLevel(clusterId);
    if scoreLevel == High || clusterLevel == High then Ok(High)
    else if scoreLevel == Medium || clusterLevel == Medium then Ok(Medium)
    else Ok(Low)
  }

  /** The combination is the maximum of the score's own level and the cluster's level. */
  lemma CombineIsMax(riskScore: real, clusterId: int)
    requires 0 <= clusterId <= 2
    ensures CombineAnalysis(riskScore, clusterId) ==
            Ok(MaxLevel(DetermineRiskLevel(riskScore), ClusterToRiskLevel(clusterId).value))
  {
  }

  /** The strategy each level calls for. */
  function RecommendedStrategy(level: RiskLevel): (t: StrategyType)
    ensures Rank(level) == 0 <==> t == AutomatedReminder
    ensures Rank(level) == 2 <==> t == LegalAction
  {
    match level
    case Low => AutomatedReminder
    case Medium => SettlementOffer
    case High => LegalAction
  }

  /** createStrategy, with the manager's own checker and channel and each
      strategy's default settings. Only the reminder constructor can refuse
      (a negative account or borrower id). */
  function CreateStrategy(accountId: int, borrowerId: int, amount: Money, level: RiskLevel): (r: Result<Strategy, Exception>)
    ensures r.Ok? ==> TypeOf(r.value) == RecommendedStrategy(level) && WellFormed(r.value)
    ensures r.Ok? ==> r.value.core == NewCore(accountId, borrowerId, amount)
    ensures r.Err? <==> level == Low && (accountId < 0 || borrowerId < 0)
  {
    match level
    case Low => NewReminder(accountId, borrowerId, amount, true)
    case Medium => NewSettlement(accountId, borrowerId, amount, true)
    case High => NewLegal(accountId, borrowerId, amount, true)
  }

  /** The features handed to the clusterer. */
  function ClusterFeatures(f: RiskFeatures, riskScore: real): (v: seq<real>)
    ensures |v| == 4 && v[3] == riskScore
  {
    [f.daysPastDue as real / 365.0, f.numberOfMissedPayments as real / 12.0, f.debtToIncomeRatio, riskScore]
  }

  /** analyzeAccount: refuses before training; otherwise scores, clusters,
      combines and recommends. */
  function AnalyzeAccount(m: Manager, f: RiskFeatures, now: int): (r: Result<AnalysisResult, Exception>)
    ensures !AreModelsReady(m) ==> r == Err(ManagerError("Model not trained. Call trainModels() first."))
    ensures r.Ok? ==> r.value.recommendedStrategy == RecommendedStrategy(r.value.riskLevel)
    ensures r.Ok? ==> 0.0 <= r.value.riskScore <= 1.0 &&
                      Rank(r.value.riskLevel) >= Rank(DetermineRiskLevel(r.value.riskScore))
    ensures r.Ok? ==> Rank(r.value.riskLevel) >= r.value.clusterId
  {
    if !AreModelsReady(m) then Err(ManagerError("Model not trained. Call trainModels() first."))
    else
      var assessment :- AssessRisk(m.scorer, f, now);
      var clusterId := m.cluster(ClusterFeatures(f, assessment.riskScore));
      CombineIsMaxIfValid(assessment.riskScore, clusterId);
      var level :- CombineAnalysis(assessment.riskScore, clusterId);
      Ok(AnalysisResult(assessment.riskScore, level, clusterId, RecommendedStrategy(level)))
  }

  lemma CombineIsMaxIfValid(riskScore: real, clusterId: int)
    ensures CombineAnalysis(riskScore, clusterId).Ok? ==>
              var l := CombineAnalysis(riskScore, clusterId).value;
              Rank(l) >= Rank(DetermineRiskLevel(riskScore)) && Rank(l) >= clusterId
  {
    if 0 <= clusterId <= 2 {
      CombineIsMax(riskScore, clusterId);
    }
  }

  /** A trained manager always scores with the forest, never with the rules. */
  lemma TrainedAnalysisUsesForest(m: Manager, f: RiskFeatures, now: int)
    requires AreModelsReady(m) && ValidateFeatures(f).Pass?
    ensures AssessRisk(m.scorer, f, now).Ok?
    ensures AssessRisk(m.scorer, f, now).value.algorithmUsed == RandomForest
    ensures AssessRisk(m.scorer, f, now).value.riskScore == Clamp(m.scorer.predict(f))
  {
  }

  predicate HasActiveStrategy(m: Manager, accountId: int) {
    accountId in m.active
  }

  function GetActiveStrategy(m: Manager, accountId: int): (r: Option<Strategy>)
    ensures r.Some? <==> HasActiveStrategy(m, accountId)
    ensures r.Some? ==> r.value == m.active[accountId]
  {
    if accountId in m.active then Some(m.active[accountId]) else None
  }

  /** The result of one assignment: the manager afterwards and the run. */
  datatype Assignment = Assignment(manager: Manager, run: Execution)

  /** Runs a freshly created strategy and keeps it only while it is still
      in progress (Active or Pending). An exception from the channel
      escapes the run before the strategy is stored, so the manager is left
      as it was and the strategy is dropped. */
  function RunAndKeep(m: Manager, accountId: int, s: Strategy, o: Oracle): (r: Result<Assignment, Exception>)
    requires WellFormed(s)
    ensures r.Err? <==> Execute(s, o).thrown.Some?
    ensures r.Err? ==> r.error == Execute(s, o).thrown.value
    ensures r.Ok? ==> r.value.run == Execute(s, o)
    ensures r.Ok? && r.value.run.status in {Active, Pending} ==>
              r.value.manager == m.(active := m.active[accountId := r.value.run.strategy])
    ensures r.Ok? && r.value.run.status !in {Active, Pending} ==> r.value.manager == m
  {
    var e := Execute(s, o);
    if e.thrown.Some? then Err(e.thrown.value)
    else if e.status == Active || e.status == Pending then
      Ok(Assignment(m.(active := m.active[accountId := e.strategy]), e))
    else Ok(Assignment(m, e))
  }

  /** assignAndExecute. An exception from the strategy's channel
      propagates out of it, and the manager is left unchanged. */
  function AssignAndExecute(m: Manager, accountId: int, borrowerId: int, amount: Money, level: RiskLevel, o: Oracle): (r: Result<Assignment, Exception>)
    ensures HasActiveStrategy(m, accountId) ==> r == Err(ManagerError("Account already has an active strategy"))
    ensures r.Ok? ==> TypeOf(r.value.run.strategy) == RecommendedStrategy(level)
    ensures r.Ok? ==> r.value.manager.active.Keys <= m.active.Keys + {accountId}
    ensures r.Ok? ==> r.value.run.thrown.None?
    ensures !HasActiveStrategy(m, accountId) && CreateStrategy(accountId, borrowerId, amount, level).Ok? ==>
              (r.Err? <==> Execute(CreateStrategy(accountId, borrowerId, amount, level).value, o).thrown.Some?)
  {
    if HasActiveStrategy(m, accountId) then Err(ManagerError("Account already has an active strategy"))
    else
      var s :- CreateStrategy(accountId, borrowerId, amount, level);
      RunAndKeep(m, accountId, s, o)
  }

  /** assignWithFullAnalysis: the same, with the level taken from analyzeAccount. */
  function AssignWithFullAnalysis(m: Manager, accountId: int, borrowerId: int, amount: Money, f: RiskFeatures,
                                  o: Oracle, now: int): (r: Result<Assignment, Exception>)
    ensures HasActiveStrategy(m, accountId) ==> r == Err(ManagerError("Account already has an active strategy"))
    ensures !HasActiveStrategy(m, accountId) && !AreModelsReady(m) ==> r == Err(ManagerError("Model not trained. Call trainModels() first."))
  {
    if HasActiveStrategy(m, accountId) then Err(ManagerError("Account already has an active strategy"))
    else
      var analysis :- AnalyzeAccount(m, f, now);
      var s :- CreateStrategy(accountId, borrowerId, amount, analysis.riskLevel);
      RunAndKeep(m, accountId, s, o)
  }

  /** A fresh run either throws or ends Completed or Failed, so the manager
      never keeps the strategy: the active map is the same after every
      assignment that returns, and the account can be assigned again at once. */
  lemma ActiveMapNeverGrows(m: Manager, accountId: int, borrowerId: int, amount: Money, level: RiskLevel, o: Oracle)
    ensures AssignAndExecute(m, accountId, borrowerId, amount, level, o).Ok? ==>
              AssignAndExecute(m, accountId, borrowerId, amount, level, o).value.manager == m
  {
    var c := CreateStrategy(accountId, borrowerId, amount, level);
    if c.Ok? {
      FreshRunNotKept(m, accountId, borrowerId, amount, c.value, o);
    }
  }

  /** The same holds when the level comes from a full analysis. */
  lemma AnalysedMapNeverGrows(m: Manager, accountId: int, borrowerId: int, amount: Money,
                              f: RiskFeatures, o: Oracle, now: int)
    ensures AssignWithFullAnalysis(m, accountId, borrowerId, amount, f, o, now).Ok? ==>
              AssignWithFullAnalysis(m, accountId, borrowerId, amount, f, o, now).value.manager == m
  {
    var a := AnalyzeAccount(m, f, now);
    FullAnalysisAssigns(m, accountId, borrowerId, amount, f, o, now);
    if a.Ok? {
      ActiveMapNeverGrows(m, accountId, borrowerId, amount, a.value.riskLevel, o);
    }
  }

  /** A full analysis either fails as the analysis does or assigns exactly
      as assignAndExecute does with the level the analysis found. */
  lemma FullAnalysisAssigns(m: Manager, accountId: int, borrowerId: int, amount: Money,
                            f: RiskFeatures, o: Oracle, now: int)
    ensures !HasActiveStrategy(m, accountId) && AnalyzeAccount(m, f, now).Err? ==>
              AssignWithFullAnalysis(m, accountId, borrowerId, amount, f, o, now) == Err(AnalyzeAccount(m, f, now).error)
    ensures AnalyzeAccount(m, f, now).Ok? ==>
              AssignWithFullAnalysis(m, accountId, borrowerId, amount, f, o, now) ==
              AssignAndExecute(m, accountId, borrowerId, amount, AnalyzeAccount(m, f, now).value.riskLevel, o)
  {
  }

  /** A strategy that has not run yet either throws or finishes its run,
      so it is not kept. */
  lemma FreshRunNotKept(m: Manager, accountId: int, borrowerId: int, amount: Money, s: Strategy, o: Oracle)
    requires WellFormed(s) && s.core == NewCore(accountId, borrowerId, amount)
    ensures RunAndKeep(m, accountId, s, o).Ok? ==> RunAndKeep(m, accountId, s, o).value.manager == m
  {
    CanExecuteStates(s.core, accountId, borrowerId, amount);
    ExecuteEndsFinal(s, o, o);
  }

  /** cancelStrategy: removes exactly that account's entry; true iff there was one. */
  function CancelStrategy(m: Manager, accountId: int): (r: (Manager, bool))
    ensures r.1 <==> HasActiveStrategy(m, accountId)
    ensures !HasActiveStrategy(r.0, accountId)
    ensures r.0.active == m.active - {accountId}
    ensures r.0.(active := m.active) == m
  {
    if accountId in m.active then (m.(active := m.active - {accountId}), true) else (m, false)
  }

  /** Cancelling one account leaves every other account's strategy in place. */
  lemma CancelKeepsOthers(m: Manager, accountId: int, other: int)
    requires other != accountId
    ensures HasActiveStrategy(CancelStrategy(m, accountId).0, other) <==> HasActiveStrategy(m, other)
    ensures GetActiveStrategy(CancelStrategy(m, accountId).0, other) == GetActiveStrategy(m, other)
  {
  }
}
