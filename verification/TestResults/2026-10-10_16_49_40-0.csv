TestResult.DisplayName,TestResult.Outcome,TestResult.Duration,TestResult.ResourceCount,RandomSeed
T.D (correctness),Passed,00:00:00.1537727,75620,0
T.D (well-formedness),Passed,00:00:00.1424175,36971,0
