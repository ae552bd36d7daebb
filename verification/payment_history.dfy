/** A single payment against a loan account and its status machine
    (borrower-service/src/models/PaymentHistory.cpp). Dates are day numbers,
    timestamps are seconds supplied by the caller in place of the system clock. */
module PaymentHistories {
  import opened Wrappers
  import opened Exceptions
  import opened Amounts

  datatype PaymentStatus = Pending | Completed | Failed | Cancelled

  datatype PaymentMethod = BankTransfer | Cash | Card | Other

  datatype PaymentHistory = PaymentHistory(
    paymentId: int,
    accountId: int,
    paymentAmount: Money,
    paymentMethod: PaymentMethod,
    status: PaymentStatus,
    paymentDate: int,
    dueDate: Option<int>,
    notes: string,
    createdAt: int,
    updatedAt: int)

  /** The first failed check as a message, or "" when the record is valid. */
  function Validate(p: PaymentHistory): (msg: string)
    ensures msg == "" <==> p.paymentId > 0 && p.accountId > 0 && !Lt(p.paymentAmount, 0.0)
    ensures p.paymentId <= 0 ==> msg == "Invalid paymentId"
    ensures p.paymentId > 0 && p.accountId <= 0 ==> msg == "Invalid accountId"
  {
    if p.paymentId <= 0 then "Invalid paymentId"
    else if p.accountId <= 0 then "Invalid accountId"
    else if Lt(p.paymentAmount, 0.0) then "Payment amount must be positive"
    else ""
  }

  /** The amount check compares against Money(0) with the one-cent tolerance,
      and Money is never negative, so it can never fire: a zero amount is
      accepted despite the message saying "must be positive". */
  lemma AmountCheckNeverFires(p: PaymentHistory)
    ensures Validate(p) != "Payment amount must be positive"
    ensures Validate(p) == "" <==> p.paymentId > 0 && p.accountId > 0
  {
  }

  /** The constructor: a new payment starts Pending with no notes; an invalid
      one is rejected with the first failing check under field "PaymentHistory". */
  function NewPaymentHistory(paymentId: int, accountId: int, amount: Money, paymentMethod: PaymentMethod,
                             paymentDate: int, dueDate: Option<int>, now: int): (r: Result<PaymentHistory, Exception>)
    ensures r.Ok? <==> paymentId > 0 && accountId > 0
    ensures r.Ok? ==> r.value.status == Pending && r.value.notes == ""
                      && r.value.paymentId == paymentId && r.value.accountId == accountId
                      && r.value.paymentAmount == amount && r.value.paymentMethod == paymentMethod
                      && r.value.paymentDate == paymentDate && r.value.dueDate == dueDate
                      && r.value.createdAt == now && r.value.updatedAt == now
    ensures paymentId <= 0 ==> r == Err(Invalid("Invalid paymentId", "PaymentHistory"))
    ensures paymentId > 0 && accountId <= 0 ==> r == Err(Invalid("Invalid accountId", "PaymentHistory"))
  {
    var p := PaymentHistory(paymentId, accountId, amount, paymentMethod, Pending, paymentDate, dueDate, "", now, now);
    if Validate(p) != "" then Err(Invalid(Validate(p), "PaymentHistory")) else Ok(p)
  }

  predicate IsLate(p: PaymentHistory) {
    p.dueDate.Some? && p.paymentDate > p.dueDate.value
  }

  /** Lateness is strict and only depends on the two dates: paying on the due
      day is on time, a payment without due date is never late, and a later
      payment date is never less late. */
  lemma LatenessProperties(p: PaymentHistory, d: int)
    ensures p.dueDate.None? ==> !IsLate(p)
    ensures p.dueDate == Some(p.paymentDate) ==> !IsLate(p)
    ensures IsLate(p) && d >= p.paymentDate ==> IsLate(p.(paymentDate := d))
  {
  }

  predicate IsTerminalStatus(s: PaymentStatus) {
    s == Completed || s == Failed || s == Cancelled
  }

  const NotPendingToComplete: Exception := Invalid("Only pending payment can be completed", "paymentStatus")
  const NotPendingToFail: Exception := Invalid("Only pending payment can be failed", "paymentStatus")
  const CompletedCannotCancel: Exception := Invalid("Completed payment cannot be cancelled", "paymentStatus")

  function MarkCompleted(p: PaymentHistory, now: int): (r: Result<PaymentHistory, Exception>)
    ensures r.Ok? <==> p.status == Pending
    ensures r.Ok? ==> r.value == p.(status := Completed, updatedAt := now)
    ensures r.Err? ==> r.error == NotPendingToComplete
  {
    if p.status != Pending then Err(NotPendingToComplete)
    else Ok(p.(status := Completed, updatedAt := now))
  }

  function MarkFailed(p: PaymentHistory, reason: string, now: int): (r: Result<PaymentHistory, Exception>)
    ensures r.Ok? <==> p.status == Pending
    ensures r.Ok? ==> r.value == p.(status := Failed, notes := reason, updatedAt := now)
    ensures r.Err? ==> r.error == NotPendingToFail
  {
    if p.status != Pending then Err(NotPendingToFail)
    else Ok(p.(status := Failed, notes := reason, updatedAt := now))
  }

  function Cancel(p: PaymentHistory, reason: string, now: int): (r: Result<PaymentHistory, Exception>)
    ensures r.Ok? <==> p.status != Completed
    ensures r.Ok? ==> r.value == p.(status := Cancelled, notes := reason, updatedAt := now)
    ensures r.Err? ==> r.error == CompletedCannotCancel
  {
    if p.status == Completed then Err(CompletedCannotCancel)
    else Ok(p.(status := Cancelled, notes := reason, updatedAt := now))
  }

  function SetNotes(p: PaymentHistory, notes: string, now: int): (r: PaymentHistory)
    ensures r.notes == notes && r.updatedAt == now
    ensures r.(notes := p.notes, updatedAt := p.updatedAt) == p
  {
    p.(notes := notes, updatedAt := now)
  }

  /** The status machine as a whole: Pending is the only non-terminal status,
      every successful transition lands in a terminal status, Completed is
      final, and only cancel leaves Failed or Cancelled (into Cancelled). */
  lemma StatusMachine(p: PaymentHistory, reason: string, now: int)
    ensures !IsTerminalStatus(p.status) <==> p.status == Pending
    ensures MarkCompleted(p, now).Ok? ==> IsTerminalStatus(MarkCompleted(p, now).value.status)
    ensures MarkFailed(p, reason, now).Ok? ==> IsTerminalStatus(MarkFailed(p, reason, now).value.status)
    ensures Cancel(p, reason, now).Ok? ==> IsTerminalStatus(Cancel(p, reason, now).value.status)
    ensures IsTerminalStatus(p.status) ==> MarkCompleted(p, now).Err? && MarkFailed(p, reason, now).Err?
    ensures p.status == Completed ==> Cancel(p, reason, now).Err? && SetNotes(p, reason, now).status == Completed
  {
  }

  function PaymentStatusToString(s: PaymentStatus): (r: string)
    ensures |r| > 0
  {
    match s
    case Pending => "Pending"
    case Completed => "Completed"
    case Failed => "Failed"
    case Cancelled => "Cancelled"
  }

  function PaymentMethodToString(m: PaymentMethod): (r: string)
    ensures |r| > 0
  {
    match m
    case BankTransfer => "BankTransfer"
    case Cash => "Cash"
    case Card => "Card"
    case Other => "Other"
  }

  function StringToPaymentStatus(value: string): (r: Result<PaymentStatus, Exception>)
    ensures r.Ok? ==> PaymentStatusToString(r.value) == value
    ensures r.Err? ==> r.error == Invalid("Unknown payment status", "paymentStatus")
  {
    if value == "Pending" then Ok(Pending)
    else if value == "Completed" then Ok(Completed)
    else if value == "Failed" then Ok(Failed)
    else if value == "Cancelled" then Ok(Cancelled)
    else Err(Invalid("Unknown payment status", "paymentStatus"))
  }

  function StringToPaymentMethod(value: string): (r: Result<PaymentMethod, Exception>)
    ensures r.Ok? ==> PaymentMethodToString(r.value) == value
    ensures r.Err? ==> r.error == Invalid("Unknown payment method", "paymentMethod")
  {
    if value == "BankTransfer" then Ok(BankTransfer)
    else if value == "Cash" then Ok(Cash)
    else if value == "Card" then Ok(Card)
    else if value == "Other" then Ok(Other)
    else Err(Invalid("Unknown payment method", "paymentMethod"))
  }

  /** Parsing inverts printing, and a string parses exactly when some value prints as it. */
  lemma CodecRoundTrip(s: PaymentStatus, m: PaymentMethod, value: string)
    ensures StringToPaymentStatus(PaymentStatusToString(s)) == Ok(s)
    ensures StringToPaymentMethod(PaymentMethodToString(m)) == Ok(m)
    ensures StringToPaymentStatus(value).Ok? <==> exists t :: PaymentStatusToString(t) == value
    ensures StringToPaymentMethod(value).Ok? <==> exists t :: PaymentMethodToString(t) == value
  {
    StatusCodec(s, value);
    MethodCodec(m, value);
  }

  lemma StatusCodec(s: PaymentStatus, value: string)
    ensures StringToPaymentStatus(PaymentStatusToString(s)) == Ok(s)
    ensures StringToPaymentStatus(value).Ok? <==> exists t :: PaymentStatusToString(t) == value
  {
    if StringToPaymentStatus(value).Err? {
      assert forall t :: PaymentStatusToString(t) != value;
    }
  }

  lemma MethodCodec(m: PaymentMethod, value: string)
    ensures StringToPaymentMethod(PaymentMethodToString(m)) == Ok(m)
    ensures StringToPaymentMethod(value).Ok? <==> exists t :: PaymentMethodToString(t) == value
  {
    if StringToPaymentMethod(value).Err? {
      assert forall t :: PaymentMethodToString(t) != value;
    }
  }
}
