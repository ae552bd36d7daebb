/** A loan account: balance, delinquency counters and the status transition
    table (borrower-service/src/models/LoanAccount.cpp). The status enum is
    the one the implementation file uses; amounts are `real` (a `double`
    in the source) and `now` stands for std::time(nullptr). */
module LoanAccounts {
  import opened Wrappers
  import opened Exceptions
  import opened Text

  datatype AccountStatus = OnTime | Delayed | Partial | WrittenOff

  datatype LoanAccount = LoanAccount(
    accountId: int,
    borrowerId: int,
    loanAmount: real,
    remainingAmount: real,
    interestRate: real,
    status: AccountStatus,
    daysPastDue: int,
    numberOfMissedPayments: int,
    createdAt: int,
    updatedAt: int)

  /** The constructor performs no validation: the balance starts at the full
      loan amount, on time, with no delinquency. */
  function NewLoanAccount(id: int, borrowerId: int, loanAmount: real, rate: real, now: int): (a: LoanAccount)
    ensures a.accountId == id && a.borrowerId == borrowerId && a.interestRate == rate
    ensures a.loanAmount == loanAmount && a.remainingAmount == loanAmount
    ensures a.status == OnTime && a.daysPastDue == 0 && a.numberOfMissedPayments == 0
    ensures a.createdAt == now && a.updatedAt == now
  {
    LoanAccount(id, borrowerId, loanAmount, loanAmount, rate, OnTime, 0, 0, now, now)
  }

  /** The allowed status changes. */
  predicate CanUpdateStatus(from: AccountStatus, to: AccountStatus) {
    match from
    case OnTime => to == Delayed
    case Delayed => to == OnTime || to == Partial
    case Partial => to == OnTime || to == WrittenOff
    case WrittenOff => false
  }

  /** The table holds exactly five edges: no status may be re-entered,
      WrittenOff is absorbing and reachable only from Partial. */
  lemma TransitionTable(from: AccountStatus, to: AccountStatus)
    ensures CanUpdateStatus(from, to) <==>
            (from, to) in {(OnTime, Delayed), (Delayed, OnTime), (Delayed, Partial),
                           (Partial, OnTime), (Partial, WrittenOff)}
    ensures !CanUpdateStatus(from, from)
    ensures !CanUpdateStatus(WrittenOff, to)
    ensures CanUpdateStatus(from, WrittenOff) ==> from == Partial
  {
  }

  const InvalidTransition: Exception := Invalid("Invalid status transition", "account_status")

  function UpdateStatus(a: LoanAccount, to: AccountStatus, now: int): (r: Result<LoanAccount, Exception>)
    ensures r.Ok? <==> CanUpdateStatus(a.status, to)
    ensures r.Ok? ==> r.value == a.(status := to, updatedAt := now)
    ensures r.Err? ==> r.error == InvalidTransition
  {
    if !CanUpdateStatus(a.status, to) then Err(InvalidTransition)
    else Ok(a.(status := to, updatedAt := now))
  }

  /** markPaymentMissed: the account as it stands after the call, and the
      exception it threw, if any. The counters are bumped before the status
      change is attempted, so they stay bumped when that change throws. */
  function MarkPaymentMissed(a: LoanAccount, now: int): (r: (LoanAccount, Option<Exception>))
    ensures r.0.numberOfMissedPayments == a.numberOfMissedPayments + 1
    ensures r.0.daysPastDue == a.daysPastDue + 30
    ensures r.1.Some? <==> a.numberOfMissedPayments + 1 > 1 && !CanUpdateStatus(a.status, Delayed)
    ensures r.1.Some? ==> r.1.value == InvalidTransition && r.0.status == a.status && r.0.updatedAt == a.updatedAt
    ensures r.1.None? ==> (r.0.updatedAt == now
                           && r.0.status == (if a.numberOfMissedPayments + 1 > 1 then Delayed else a.status))
    ensures r.0.(numberOfMissedPayments := a.numberOfMissedPayments, daysPastDue := a.daysPastDue,
                 status := a.status, updatedAt := a.updatedAt) == a
  {
    var bumped := a.(numberOfMissedPayments := a.numberOfMissedPayments + 1, daysPastDue := a.daysPastDue + 30);
    if bumped.numberOfMissedPayments > 1 then
      match UpdateStatus(bumped, Delayed, now)
      case Err(e) => (bumped, Some(e))
      case Ok(updated) => (updated.(updatedAt := now), None)
    else
      (bumped.(updatedAt := now), None)
  }

  /** Starting from a fresh account, the first miss keeps it on time, the
      second moves it to Delayed, and the third throws because Delayed cannot
      be re-entered, leaving three misses and 90 days past due behind. */
  lemma ThirdMissThrows(id: int, borrowerId: int, loanAmount: real, rate: real, t0: int, t1: int, t2: int, t3: int)
    ensures var a0 := NewLoanAccount(id, borrowerId, loanAmount, rate, t0);
            var (a1, e1) := MarkPaymentMissed(a0, t1);
            var (a2, e2) := MarkPaymentMissed(a1, t2);
            var (a3, e3) := MarkPaymentMissed(a2, t3);
            e1.None? && a1.status == OnTime
            && e2.None? && a2.status == Delayed
            && e3 == Some(InvalidTransition) && a3.status == Delayed
            && a3.numberOfMissedPayments == 3 && a3.daysPastDue == 90
  {
  }

  const NegativePayment: Exception := Invalid("Amount cannot be negative", "payment_amount")
  const PaymentTooLarge: Exception := Invalid("Payment exceeds remaining balance", "payment_amount")

  function RecordPayment(a: LoanAccount, amount: real, now: int): (r: Result<LoanAccount, Exception>)
    ensures r.Ok? <==> 0.0 <= amount <= a.remainingAmount
    ensures amount < 0.0 ==> r == Err(NegativePayment)
    ensures 0.0 <= amount && amount > a.remainingAmount ==> r == Err(PaymentTooLarge)
    ensures r.Ok? ==> r.value.remainingAmount + amount == a.remainingAmount
    ensures r.Ok? ==> 0.0 <= r.value.remainingAmount <= a.remainingAmount
    ensures r.Ok? ==> r.value.(remainingAmount := a.remainingAmount, updatedAt := a.updatedAt) == a
  {
    if amount < 0.0 then Err(NegativePayment)
    else if amount > a.remainingAmount then Err(PaymentTooLarge)
    else Ok(a.(remainingAmount := a.remainingAmount - amount, updatedAt := now))
  }

  /** Payments can never drive the balance below zero, whatever their sequence. */
  lemma {:induction false} PaymentsKeepBalanceNonNegative(a: LoanAccount, amounts: seq<real>, now: int)
    requires a.remainingAmount >= 0.0
    ensures ApplyPayments(a, amounts, now).remainingAmount >= 0.0
    decreases |amounts|
  {
    if |amounts| > 0 {
      match RecordPayment(a, amounts[0], now)
      case Ok(b) => PaymentsKeepBalanceNonNegative(b, amounts[1..], now);
      case Err(_) => PaymentsKeepBalanceNonNegative(a, amounts[1..], now);
    }
  }

  /** Applies payments in order, skipping the ones that are rejected. */
  function ApplyPayments(a: LoanAccount, amounts: seq<real>, now: int): LoanAccount
    decreases |amounts|
  {
    if |amounts| == 0 then a
    else
      match RecordPayment(a, amounts[0], now)
      case Ok(b) => ApplyPayments(b, amounts[1..], now)
      case Err(_) => ApplyPayments(a, amounts[1..], now)
  }

  function IncrementDaysPastDue(a: LoanAccount, days: int, now: int): (r: LoanAccount)
    ensures days > 0 ==> r == a.(daysPastDue := a.daysPastDue + days, updatedAt := now)
    ensures days <= 0 ==> r == a
    ensures r.daysPastDue >= a.daysPastDue
  {
    if days > 0 then a.(daysPastDue := a.daysPastDue + days, updatedAt := now) else a
  }

  /** The first failed check as a message, or "" when the account is valid. */
  function Validate(a: LoanAccount): (msg: string)
    ensures msg == "" <==> (a.accountId > 0 && a.borrowerId > 0 && a.loanAmount > 0.0
                           && 0.0 <= a.interestRate <= 1.0)
    ensures a.accountId <= 0 ==> msg == "Invalid account ID"
    ensures a.accountId > 0 && a.borrowerId <= 0 ==> msg == "Invalid borrower ID"
    ensures a.accountId > 0 && a.borrowerId > 0 && a.loanAmount <= 0.0 ==> msg == "Loan amount must be positive"
  {
    if a.accountId <= 0 then "Invalid account ID"
    else if a.borrowerId <= 0 then "Invalid borrower ID"
    else if a.loanAmount <= 0.0 then "Loan amount must be positive"
    else if a.interestRate < 0.0 || a.interestRate > 1.0 then "Interest rate can not be under 0 or above 1"
    else ""
  }

  function StatusToString(s: AccountStatus): (r: string)
    ensures |r| > 0
  {
    match s
    case OnTime => "On-Time"
    case Delayed => "Delayed"
    case Partial => "Partially Recovered"
    case WrittenOff => "Written-off"
  }

  const UnknownStatus: Exception := Invalid("Unknown status string", "account_status")

  /** Case-insensitive parse: the input is lowercased before comparison. */
  function StringToStatus(str: string): (r: Result<AccountStatus, Exception>)
    ensures r.Ok? ==> ToLower(str) == ToLower(StatusToString(r.value))
    ensures r.Err? ==> r.error == UnknownStatus
  {
    var lower := ToLower(str);
    LowerNames();
    if lower == "on-time" then Ok(OnTime)
    else if lower == "delayed" then Ok(Delayed)
    else if lower == "partially recovered" then Ok(Partial)
    else if lower == "written-off" then Ok(WrittenOff)
    else Err(UnknownStatus)
  }

  lemma LowerNames()
    ensures ToLower("On-Time") == "on-time"
    ensures ToLower("Delayed") == "delayed"
    ensures ToLower("Partially Recovered") == "partially recovered"
    ensures ToLower("Written-off") == "written-off"
  {
  }

  /** Parsing inverts printing, ignores letter case, and fails exactly on the
      strings that match no status name case-insensitively. */
  lemma StatusCodec(s: AccountStatus, str: string)
    ensures StringToStatus(StatusToString(s)) == Ok(s)
    ensures StringToStatus(ToLower(str)) == StringToStatus(str)
    ensures StringToStatus(str).Err? <==> forall t :: ToLower(str) != ToLower(StatusToString(t))
  {
    LowerNames();
    ToLowerIdempotent(str);
  }
}
