/** RiskAssessmentRepository in mock mode: the assessments kept in memory,
    plus the algorithm column's text encoding. */
module RiskRepository {
  import opened Wrappers
  import opened Exceptions
  import opened MockStores
  import opened RiskScoring

  type AssessmentStore = Store<RiskAssessment>

  const NotFound: string := "Risk assessment not found: "

  function AssessmentId(a: RiskAssessment): int {
    a.assessmentId
  }

  function ByAccount(accountId: int): RiskAssessment -> bool {
    (a: RiskAssessment) => a.accountId == accountId
  }

  function ByBorrower(borrowerId: int): RiskAssessment -> bool {
    (a: RiskAssessment) => a.borrowerId == borrowerId
  }

  function ByLevel(level: RiskLevel): RiskAssessment -> bool {
    (a: RiskAssessment) => a.riskLevel == level
  }

  /** create: stores the assessment as given (its id is not assigned). */
  function CreateAssessment(st: AssessmentStore, a: RiskAssessment): (r: (AssessmentStore, RiskAssessment))
    ensures r.1 == a && r.0.storage == st.storage + [a] && r.0.nextMockId == st.nextMockId + 1
  {
    Create(st, a)
  }

  function GetAssessmentById(st: AssessmentStore, id: int): (r: Result<RiskAssessment, Exception>)
    ensures r.Ok? <==> exists i :: 0 <= i < |st.storage| && st.storage[i].assessmentId == id
    ensures r.Ok? ==> r.value.assessmentId == id && r.value in st.storage
    ensures r.Err? ==> r.error == Database(DatabaseException(NotFound + Text.IntToDecimal(id), RecordNotFound))
  {
    GetById(st, id, AssessmentId, NotFound)
  }

  function GetAllAssessments(st: AssessmentStore): (r: seq<RiskAssessment>)
    ensures r == st.storage
  {
    st.storage
  }

  function GetAssessmentsByAccountId(st: AssessmentStore, accountId: int): (r: seq<RiskAssessment>)
    ensures forall a :: a in r ==> a in st.storage && a.accountId == accountId
    ensures forall i :: 0 <= i < |st.storage| && st.storage[i].accountId == accountId ==> st.storage[i] in r
  {
    Query(st, ByAccount(accountId))
  }

  function GetAssessmentsByBorrowerId(st: AssessmentStore, borrowerId: int): (r: seq<RiskAssessment>)
    ensures forall a :: a in r ==> a in st.storage && a.borrowerId == borrowerId
    ensures forall i :: 0 <= i < |st.storage| && st.storage[i].borrowerId == borrowerId ==> st.storage[i] in r
  {
    Query(st, ByBorrower(borrowerId))
  }

  function GetAssessmentsByRiskLevel(st: AssessmentStore, level: RiskLevel): (r: seq<RiskAssessment>)
    ensures forall a :: a in r ==> a in st.storage && a.riskLevel == level
    ensures forall i :: 0 <= i < |st.storage| && st.storage[i].riskLevel == level ==> st.storage[i] in r
  {
    Query(st, ByLevel(level))
  }

  /** getRecentAssessments: despite the name, the OLDEST min(size, limit)
      assessments, in insertion order. */
  method GetRecentAssessments(st: AssessmentStore, limit: int) returns (recent: seq<RiskAssessment>)
    ensures |recent| == if limit <= 0 then 0 else if limit < |st.storage| then limit else |st.storage|
    ensures recent == st.storage[..|recent|]
  {
    recent := Recent(st, limit);
  }

  function DeleteAssessment(st: AssessmentStore, id: int): (r: (AssessmentStore, bool))
    ensures r.1 <==> exists i :: 0 <= i < |st.storage| && st.storage[i].assessmentId == id
    ensures !r.1 ==> r.0 == st
    ensures r.1 ==> |r.0.storage| == |st.storage| - 1 && r.0.nextMockId == st.nextMockId
  {
    DeleteById(st, id, AssessmentId)
  }

  /** The three level queries partition the store: every assessment is in
      exactly one of them. */
  lemma LevelQueriesPartition(st: AssessmentStore, a: RiskAssessment, level: RiskLevel)
    requires a in st.storage
    ensures a in GetAssessmentsByRiskLevel(st, a.riskLevel)
    ensures level != a.riskLevel ==> a !in GetAssessmentsByRiskLevel(st, level)
  {
  }

  /** A query after a create grows by the new assessment exactly when it matches. */
  lemma QueriesAfterCreate(st: AssessmentStore, a: RiskAssessment, accountId: int, level: RiskLevel)
    ensures GetAssessmentsByAccountId(CreateAssessment(st, a).0, accountId)
            == GetAssessmentsByAccountId(st, accountId) + (if a.accountId == accountId then [a] else [])
    ensures GetAssessmentsByRiskLevel(CreateAssessment(st, a).0, level)
            == GetAssessmentsByRiskLevel(st, level) + (if a.riskLevel == level then [a] else [])
  {
    QueryAfterCreate(st, a, ByAccount(accountId));
    QueryAfterCreate(st, a, ByLevel(level));
  }

  /** Every assessment the constructor builds has id 0 and the store never
      assigns one (`MockStores.IdsNeverAssigned`), so a store holding only
      such assessments finds no other id. */
  lemma FreshAssessmentsUnreachableById(st: AssessmentStore, id: int)
    requires forall i :: 0 <= i < |st.storage| ==> st.storage[i].assessmentId == 0
    requires id != 0
    ensures GetAssessmentById(st, id).Err?
  {
  }

  /** The algorithm column as written on insert. */
  function AlgorithmToString(a: AlgorithmUsed): (s: string)
    ensures s in {"RandomForest", "RuleBase"}
  {
    if a == RandomForest then "RandomForest" else "RuleBase"
  }

  /** The algorithm column as read back: anything but "RandomForest" is the rule engine. */
  function StringToAlgorithm(s: string): (a: AlgorithmUsed)
    ensures a == RandomForest <==> s == "RandomForest"
  {
    if s == "RandomForest" then RandomForest else RuleBase
  }

  /** The label RiskAssessment::toJson prints, which spells the rule engine "RuleBased". */
  function JsonAlgorithmLabel(a: AlgorithmUsed): (s: string)
    ensures s in {"RandomForest", "RuleBased"}
  {
    if a == RandomForest then "RandomForest" else "RuleBased"
  }

  /** Decoding inverts both encodings, although the two spell the rule
      engine differently; the two spellings differ only there. */
  lemma AlgorithmRoundTrip(a: AlgorithmUsed)
    ensures StringToAlgorithm(AlgorithmToString(a)) == a
    ensures StringToAlgorithm(JsonAlgorithmLabel(a)) == a
    ensures AlgorithmToString(a) == JsonAlgorithmLabel(a) <==> a == RandomForest
  {
  }
}
