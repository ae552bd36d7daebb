/** The recovery strategies: the shared lifecycle of RecoveryStrategy and
    the three concrete strategies (automated reminders, settlement offer,
    legal action). The payment checker, the clock, the random case number
    and the communication channel are outside the model: the checker's
    answers, the channel's verdict on each send and the case number come in
    as an `Oracle`, and the messages the channel accepted come out as a list
    of notices. */
module Strategies {
  import opened Wrappers
  import opened Exceptions
  import opened Amounts
  import CommunicationManagers

  datatype StrategyType = AutomatedReminder | SettlementOffer | LegalAction

  datatype StrategyStatus = Pending | Active | Completed | Failed | Cancelled

  datatype LegalStage = NotStarted | NoticesSent | CaseFiled | InCourt | JudgmentObtained | Enforcing

  /** The state every strategy shares. */
  datatype Core = Core(
    strategyId: int,
    accountId: int,
    borrowerId: int,
    status: StrategyStatus,
    attemptCount: int,
    expectedAmount: Money,
    actualAmount: Money)

  /** What a concrete strategy adds to the shared state. */
  datatype Plan =
    | Reminder(maxReminders: int, intervalDays: int)
    | Settlement(hasChecker: bool, discountRate: real, offerValidDays: int, minimumAcceptableAmount: Money)
    | Legal(lawFirm: string, caseNumber: string, legalStage: LegalStage)

  datatype Strategy = Strategy(core: Core, plan: Plan)

  /** A message handed to the communication channel. */
  datatype Notice =
    | ReminderNotice
    | SettlementNotice(offerAmount: Money)
    | LegalNotice(lawFirm: string)

  /** What the world answers during one execute: `received(i)` is the
      i-th hasPaymentReceived answer, `hasFullPayment` the full-payment
      check, `caseNumber` the generated case number, and `send(i)` what the
      channel's sendMessage does with the i-th message: `None` when it
      returns, `Some(e)` when it throws `e`. */
  datatype Oracle = Oracle(received: nat -> bool, hasFullPayment: (int, Money) -> bool, caseNumber: string,
                           send: nat -> Option<Exception>)

  /** The outcome of execute: the strategy afterwards, its status, the
      notices the channel accepted, in order, and the exception that
      escaped from the channel, if one did. A run that throws returns no
      status; the strategy is left as the throw found it. */
  datatype Execution = Execution(strategy: Strategy, status: StrategyStatus, sent: seq<Notice>, thrown: Option<Exception>)

  /** The indices of the sends that throw. */
  function Throws(send: nat -> Option<Exception>): nat -> bool {
    (j: nat) => send(j).Some?
  }

  const ReminderText: string := "Please settle your outstanding balance!"

  /** RecoveryStrategy's constructor: Pending, nothing attempted, nothing recovered. */
  function NewCore(accountId: int, borrowerId: int, expectedAmount: Money): (c: Core)
    ensures c.status == Pending && c.attemptCount == 0 && c.actualAmount == 0.0 && c.strategyId == 0
    ensures c.accountId == accountId && c.borrowerId == borrowerId && c.expectedAmount == expectedAmount
  {
    Core(0, accountId, borrowerId, Pending, 0, expectedAmount, 0.0)
  }

  predicate CanExecute(c: Core) {
    c.status == Active || c.status == Pending
  }

  /** canExecute holds exactly in the two non-final states, so a fresh strategy can run. */
  lemma CanExecuteStates(c: Core, accountId: int, borrowerId: int, amount: Money)
    ensures CanExecute(c) <==> c.status !in {Completed, Failed, Cancelled}
    ensures CanExecute(NewCore(accountId, borrowerId, amount))
  {
  }

  function TypeOf(s: Strategy): StrategyType {
    match s.plan
    case Reminder(_, _) => AutomatedReminder
    case Settlement(_, _, _, _) => SettlementOffer
    case Legal(_, _, _) => LegalAction
  }

  function FormatError(message: string): Exception {
    Invalid(message, "AutomatedStrategy", InvalidFormat)
  }

  /** AutomatedReminderStrategy's constructor (defaults: 3 reminders, 7 days). */
  function NewReminder(accountId: int, borrowerId: int, expected: Money, hasChecker: bool,
                       maxReminders: int := 3, intervalDays: int := 7): (r: Result<Strategy, Exception>)
    ensures r.Ok? <==> accountId >= 0 && borrowerId >= 0 && maxReminders >= 0 && intervalDays >= 0 && hasChecker
    ensures accountId < 0 ==> r == Err(FormatError("Account ID cannot be negative"))
    ensures accountId >= 0 && borrowerId < 0 ==> r == Err(FormatError("Borrower ID cannot be negative"))
    ensures accountId >= 0 && borrowerId >= 0 && maxReminders < 0 ==> r == Err(FormatError("Max Reminders cannot be negative"))
    ensures accountId >= 0 && borrowerId >= 0 && maxReminders >= 0 && intervalDays < 0 ==>
              r == Err(FormatError("Interval Days cannot be negative"))
    ensures r.Ok? ==> r.value.core == NewCore(accountId, borrowerId, expected) &&
                      r.value.plan == Reminder(maxReminders, intervalDays)
  {
    if accountId < 0 then Err(FormatError("Account ID cannot be negative"))
    else if borrowerId < 0 then Err(FormatError("Borrower ID cannot be negative"))
    else if maxReminders < 0 then Err(FormatError("Max Reminders cannot be negative"))
    else if intervalDays < 0 then Err(FormatError("Interval Days cannot be negative"))
    else if !hasChecker then Err(Invalid("Payment checker cannot be null", "PaymentChecker"))
    else Ok(Strategy(NewCore(accountId, borrowerId, expected), Reminder(maxReminders, intervalDays)))
  }

  /** The loop bound: how many reminders a run may still send. */
  function Budget(attempts: int, maxReminders: int): nat {
    if attempts < maxReminders then maxReminders - attempts else 0
  }

  /** The first index in [from, to) whose check succeeds, or `to` if none does. */
  function FirstTrue(checks: nat -> bool, from: nat, to: nat): (k: nat)
    requires from <= to
    ensures from <= k <= to
    ensures forall j :: from <= j < k ==> !checks(j)
    ensures k < to ==> checks(k)
    decreases (to as int) - (from as int)
  {
    if from == to then to
    else if checks(from) then from
    else FirstTrue(checks, from + 1, to)
  }

  function Reminders(n: nat): (r: seq<Notice>)
    ensures |r| == n && forall i :: 0 <= i < n ==> r[i] == ReminderNotice
  {
    seq(n, _ => ReminderNotice)
  }

  /** The while loop of AutomatedReminderStrategy::execute, from check
      number `i` on: before each reminder the payment is checked, and a
      final check after the last reminder decides between Completed and
      Failed. A reminder the channel throws on ends the run at once, before
      the attempt is counted. */
  function ReminderLoop(c: Core, maxReminders: int, checks: nat -> bool, send: nat -> Option<Exception>, i: nat)
    : (r: (Core, seq<Notice>, Option<Exception>))
    decreases Budget(c.attemptCount, maxReminders)
  {
    if c.attemptCount < maxReminders then
      if checks(i) then (c.(status := Completed), [], None)
      else if send(i).Some? then (c, [], send(i))
      else
        var (c', sent, thrown) := ReminderLoop(c.(attemptCount := c.attemptCount + 1), maxReminders, checks, send, i + 1);
        (c', [ReminderNotice] + sent, thrown)
    else (c.(status := if checks(i) then Completed else Failed), [], None)
  }

  /** The loop in closed form. With b the remaining budget, k the first
      successful check and f the first throwing send before k: a throw
      ends the run after f reminders with the status untouched; otherwise a
      success inside the budget completes after k reminders, and without
      one all b reminders go out and the final check decides. Only the
      status and the attempt count change. */
  predicate LoopOutcome(c: Core, maxReminders: int, checks: nat -> bool, send: nat -> Option<Exception>, i: nat,
                        r: (Core, seq<Notice>, Option<Exception>)) {
    var b := Budget(c.attemptCount, maxReminders);
    var k := FirstTrue(checks, i, i + b);
    var f := FirstTrue(Throws(send), i, k);
    r.0.attemptCount == c.attemptCount + (f - i) &&
    r.1 == Reminders(f - i) &&
    r.0.(status := c.status, attemptCount := c.attemptCount) == c &&
    (f < k ==> r.2 == send(f) && r.0.status == c.status) &&
    (f == k ==> r.2.None?) &&
    (f == k && k < i + b ==> r.0.status == Completed) &&
    (f == k && k == i + b ==> r.0.status == (if checks(i + b) then Completed else Failed))
  }

  lemma {:induction false} ReminderLoopOutcome(c: Core, maxReminders: int, checks: nat -> bool,
                                               send: nat -> Option<Exception>, i: nat)
    ensures LoopOutcome(c, maxReminders, checks, send, i, ReminderLoop(c, maxReminders, checks, send, i))
    decreases Budget(c.attemptCount, maxReminders)
  {
    if c.attemptCount < maxReminders && !checks(i) && send(i).None? {
      var c1 := c.(attemptCount := c.attemptCount + 1);
      ReminderLoopOutcome(c1, maxReminders, checks, send, i + 1);
      ReminderLoopStep(c, maxReminders, checks, send, i);
      OutcomeStep(c, maxReminders, checks, send, i, ReminderLoop(c1, maxReminders, checks, send, i + 1));
    } else {
      OutcomeEnd(c, maxReminders, checks, send, i);
    }
  }

  /** One turn of the loop: an unpaid check within the budget and a send
      that returns put out one reminder and continue with one attempt more. */
  lemma ReminderLoopStep(c: Core, maxReminders: int, checks: nat -> bool, send: nat -> Option<Exception>, i: nat)
    requires c.attemptCount < maxReminders && !checks(i) && send(i).None?
    ensures var r1 := ReminderLoop(c.(attemptCount := c.attemptCount + 1), maxReminders, checks, send, i + 1);
            ReminderLoop(c, maxReminders, checks, send, i) == (r1.0, [ReminderNotice] + r1.1, r1.2)
  {
  }

  /** The closed form survives one turn of the loop. */
  lemma OutcomeStep(c: Core, maxReminders: int, checks: nat -> bool, send: nat -> Option<Exception>, i: nat,
                    r1: (Core, seq<Notice>, Option<Exception>))
    requires c.attemptCount < maxReminders && !checks(i) && send(i).None?
    requires LoopOutcome(c.(attemptCount := c.attemptCount + 1), maxReminders, checks, send, i + 1, r1)
    ensures LoopOutcome(c, maxReminders, checks, send, i, (r1.0, [ReminderNotice] + r1.1, r1.2))
  {
    var b := Budget(c.attemptCount, maxReminders);
    assert Budget(c.attemptCount + 1, maxReminders) == b - 1;
    var k := FirstTrue(checks, i, i + b);
    assert k == FirstTrue(checks, i + 1, i + b);
    assert i < k;
    var f := FirstTrue(Throws(send), i, k);
    assert !Throws(send)(i);
    assert f == FirstTrue(Throws(send), i + 1, k);
    assert [ReminderNotice] + Reminders(f - (i + 1)) == Reminders(f - i);
  }

  /** The closed form where the loop stops: a payment, a throwing send or
      an exhausted budget. */
  lemma OutcomeEnd(c: Core, maxReminders: int, checks: nat -> bool, send: nat -> Option<Exception>, i: nat)
    requires !(c.attemptCount < maxReminders && !checks(i) && send(i).None?)
    ensures LoopOutcome(c, maxReminders, checks, send, i, ReminderLoop(c, maxReminders, checks, send, i))
  {
    assert Reminders(0) == [];
    if c.attemptCount < maxReminders && !checks(i) {
      assert Throws(send)(i);
      assert FirstTrue(Throws(send), i, FirstTrue(checks, i, i + Budget(c.attemptCount, maxReminders))) == i;
    }
  }

  /** AutomatedReminderStrategy::execute. */
  function ExecuteReminder(s: Strategy, o: Oracle): (e: Execution)
    requires s.plan.Reminder?
    ensures !CanExecute(s.core) ==> e == Execution(s, s.core.status, [], None)
    ensures e.strategy.plan == s.plan && e.strategy.core.status == e.status
  {
    if !CanExecute(s.core) then Execution(s, s.core.status, [], None)
    else
      var (c, sent, thrown) := ReminderLoop(s.core.(status := Active), s.plan.maxReminders, o.received, o.send, 0);
      Execution(s.(core := c), c.status, sent, thrown)
  }

  /** The reminder run, stated through the checks and the sends. Let k be
      the first successful check and f the first throwing send before it.
      If a send throws, f reminders have gone out, the exception escapes
      and the strategy stays Active, so it can run again. Otherwise a
      success within the budget completes after exactly k reminders, and
      without one the final check decides. The attempt count never passes
      the maximum. */
  lemma ReminderRun(s: Strategy, o: Oracle)
    requires s.plan.Reminder? && CanExecute(s.core)
    ensures var e := ExecuteReminder(s, o);
            var b := Budget(s.core.attemptCount, s.plan.maxReminders);
            var k := FirstTrue(o.received, 0, b);
            var f := FirstTrue(Throws(o.send), 0, k);
            e.strategy.core.status == e.status &&
            e.sent == Reminders(f) &&
            e.strategy.core.attemptCount == s.core.attemptCount + f &&
            (f < k ==> e.thrown == o.send(f) && e.thrown.Some? && e.status == Active) &&
            (f == k ==> e.thrown.None? && e.status in {Completed, Failed}) &&
            (f == k && k < b ==> e.status == Completed) &&
            (f == k && k == b ==> (e.status == Completed <==> o.received(b))) &&
            (s.core.attemptCount <= s.plan.maxReminders ==> e.strategy.core.attemptCount <= s.plan.maxReminders)
  {
    ReminderLoopOutcome(s.core.(status := Active), s.plan.maxReminders, o.received, o.send, 0);
  }

  /** With the default three reminders, a borrower who never pays and a
      channel that accepts every message, three reminders go out and the
      strategy fails. */
  lemma NeverPaidGetsThreeReminders(s: Strategy, o: Oracle)
    requires s.core.status == Pending && s.core.attemptCount == 0 && s.plan == Reminder(3, 7)
    requires forall i: nat :: !o.received(i) && o.send(i).None?
    ensures ExecuteReminder(s, o).sent == [ReminderNotice, ReminderNotice, ReminderNotice]
    ensures ExecuteReminder(s, o).status == Failed && ExecuteReminder(s, o).thrown.None?
  {
    ReminderRun(s, o);
    assert FirstTrue(o.received, 0, 3) == 3;
    assert FirstTrue(Throws(o.send), 0, 3) == 3 by {
      assert !Throws(o.send)(0) && !Throws(o.send)(1) && !Throws(o.send)(2);
    }
  }

  /** The communication manager, as the service implements it, as the
      `send` of an oracle: every send of `message` to the account throws
      what sendMessage throws, a missing channel included. The returned
      delivery flag is ignored by the strategies. */
  function ManagerSends(cm: CommunicationManagers.Manager, accountId: int, message: string): (send: nat -> Option<Exception>)
    ensures forall i: nat :: send(i).Some? <==> CommunicationManagers.SendMessage(cm, accountId, message).Err?
    ensures forall i: nat :: CommunicationManagers.SendMessage(cm, accountId, message).Err? ==>
              send(i) == Some(CommunicationManagers.SendMessage(cm, accountId, message).error)
  {
    var r := CommunicationManagers.SendMessage(cm, accountId, message);
    (i: nat) => if r.Err? then Some(r.error) else None
  }

  /** A reminder run through a communication manager with no channel
      registered: the account is valid, but the channel lookup throws on
      the first reminder, so nothing goes out and the strategy is left
      Active with no attempt counted. */
  lemma NoChannelReminderThrows(s: Strategy, o: Oracle)
    requires s == NewReminder(1003, 1, 100.0, true).value
    requires !o.received(0) && o.send == ManagerSends(CommunicationManagers.Manager(map[]), 1003, ReminderText)
    ensures NewReminder(1003, 1, 100.0, true).Ok?
    ensures ExecuteReminder(s, o).thrown == Some(CommunicationManagers.ChannelNotFound)
    ensures ExecuteReminder(s, o).sent == [] && ExecuteReminder(s, o).status == Active
    ensures ExecuteReminder(s, o).strategy.core.attemptCount == 0 && CanExecute(ExecuteReminder(s, o).strategy.core)
  {
    ReminderRun(s, o);
    assert FirstTrue(o.received, 0, 3) > 0;
    assert Throws(o.send)(0);
  }

  /** A reminder strategy may be built for account 0, but the communication
      manager refuses that account: the first reminder throws, nothing goes
      out, and the strategy is left Active with no attempt counted. */
  lemma AccountZeroReminderThrows(s: Strategy, cm: CommunicationManagers.Manager, o: Oracle)
    requires s == NewReminder(0, 1, 100.0, true).value
    requires !o.received(0) && o.send == ManagerSends(cm, 0, ReminderText)
    ensures NewReminder(0, 1, 100.0, true).Ok?
    ensures ExecuteReminder(s, o).thrown == Some(Invalid("Invalid accountId", "accountId"))
    ensures ExecuteReminder(s, o).sent == [] && ExecuteReminder(s, o).status == Active
    ensures ExecuteReminder(s, o).strategy.core.attemptCount == 0 && CanExecute(ExecuteReminder(s, o).strategy.core)
  {
    ReminderRun(s, o);
    assert FirstTrue(o.received, 0, 3) > 0;
    assert Throws(o.send)(0);
  }

  /** SettlementOfferStrategy's constructor (defaults: 15% off, valid 30 days). */
  function NewSettlement(accountId: int, borrowerId: int, expected: Money, hasChecker: bool,
                         discountRate: real := 0.15, offerValidDays: int := 30): (r: Result<Strategy, Exception>)
    ensures r.Ok? <==> 0.0 <= discountRate <= 1.0 && offerValidDays > 0
    ensures !(0.0 <= discountRate <= 1.0) ==>
              r == Err(Invalid("Discount Rate must be between 0 and 1", "SettlementOfferStrategy"))
    ensures 0.0 <= discountRate <= 1.0 && offerValidDays <= 0 ==>
              r == Err(Invalid("Offer Valid Days must be positive", "SettlementOfferStrategy"))
    ensures r.Ok? ==> r.value.core == NewCore(accountId, borrowerId, expected) &&
                      r.value.plan == Settlement(hasChecker, discountRate, offerValidDays, SettlementAmount(expected, discountRate))
  {
    if discountRate < 0.0 || discountRate > 1.0 then Err(Invalid("Discount Rate must be between 0 and 1", "SettlementOfferStrategy"))
    else if offerValidDays <= 0 then Err(Invalid("Offer Valid Days must be positive", "SettlementOfferStrategy"))
    else Ok(Strategy(NewCore(accountId, borrowerId, expected),
                     Settlement(hasChecker, discountRate, offerValidDays, SettlementAmount(expected, discountRate))))
  }

  /** calculateSettlementAmount: the expected amount less the discount. */
  function SettlementAmount(expected: Money, rate: real): (r: Money)
    requires 0.0 <= rate <= 1.0
    ensures r <= expected
    ensures r + expected * rate == expected
  {
    expected * (1.0 - rate)
  }

  /** SettlementOfferStrategy::execute: one offer, then the full-payment
      check. sendOffer counts the attempt before it sends, so an offer the
      channel throws on is still counted, and the strategy stays Active. */
  function ExecuteSettlement(s: Strategy, o: Oracle): (e: Execution)
    requires s.plan.Settlement? && 0.0 <= s.plan.discountRate <= 1.0
    ensures !CanExecute(s.core) ==> e == Execution(s, s.core.status, [], None)
    ensures CanExecute(s.core) ==>
              e.strategy.plan == s.plan &&
              e.strategy.core.attemptCount == s.core.attemptCount + 1 &&
              e.status == e.strategy.core.status &&
              e.thrown == o.send(0)
    ensures CanExecute(s.core) && o.send(0).Some? ==>
              e.sent == [] && e.status == Active && e.strategy.core.actualAmount == s.core.actualAmount
    ensures CanExecute(s.core) && o.send(0).None? ==>
              e.sent == [SettlementNotice(SettlementAmount(s.core.expectedAmount, s.plan.discountRate))] &&
              (e.status == Completed <==> s.plan.hasChecker && o.hasFullPayment(s.core.accountId, s.core.expectedAmount)) &&
              (e.status != Completed ==> e.status == Failed && e.strategy.core.actualAmount == s.core.actualAmount) &&
              (e.status == Completed ==> e.strategy.core.actualAmount == s.plan.minimumAcceptableAmount)
  {
    if !CanExecute(s.core) then Execution(s, s.core.status, [], None)
    else
      var offered := s.core.(status := Active, attemptCount := s.core.attemptCount + 1);
      var notice := SettlementNotice(SettlementAmount(s.core.expectedAmount, s.plan.discountRate));
      if o.send(0).Some? then
        Execution(s.(core := offered), Active, [], o.send(0))
      else if s.plan.hasChecker && o.hasFullPayment(s.core.accountId, s.core.expectedAmount) then
        var c := offered.(actualAmount := s.plan.minimumAcceptableAmount, status := Completed);
        Execution(s.(core := c), Completed, [notice], None)
      else
        Execution(s.(core := offered.(status := Failed)), Failed, [notice], None)
  }

  /** The checker is asked about the full, undiscounted amount: a borrower
      who pays exactly the offered settlement (and no more) makes the offer
      fail whenever the discount is positive. */
  lemma SettlementNeedsFullAmount(s: Strategy)
    requires s.plan.Settlement? && CanExecute(s.core) && 0.0 < s.plan.discountRate <= 1.0 && s.core.expectedAmount > 0.0
    ensures var paid := SettlementAmount(s.core.expectedAmount, s.plan.discountRate);
            ExecuteSettlement(s, Oracle(_ => true, (id, amount: Money) => paid >= amount, "", _ => None)).status == Failed
  {
  }

  /** LegalActionStrategy's constructor (default firm "Default Law Firm"). */
  function NewLegal(accountId: int, borrowerId: int, expected: Money, hasChecker: bool,
                    lawFirm: string := "Default Law Firm"): (r: Result<Strategy, Exception>)
    ensures r.Ok? <==> |lawFirm| > 0 && hasChecker
    ensures |lawFirm| == 0 ==> r == Err(Invalid("Law firm name cannot be empty", "LegalActionStrategy"))
    ensures |lawFirm| > 0 && !hasChecker ==> r == Err(Invalid("Payment checker cannot be null", "LegalActionStrategy"))
    ensures r.Ok? ==> r.value.core == NewCore(accountId, borrowerId, expected) && r.value.plan == Legal(lawFirm, "", NotStarted)
  {
    if |lawFirm| == 0 then Err(Invalid("Law firm name cannot be empty", "LegalActionStrategy"))
    else if !hasChecker then Err(Invalid("Payment checker cannot be null", "LegalActionStrategy"))
    else Ok(Strategy(NewCore(accountId, borrowerId, expected), Legal(lawFirm, "", NotStarted)))
  }

  /** sendLegalNotice: one more attempt, stage NoticesSent, one notice. */
  function SendLegalNotice(s: Strategy): (r: (Strategy, Notice))
    requires s.plan.Legal?
    ensures r.0.plan == Legal(s.plan.lawFirm, s.plan.caseNumber, NoticesSent) && r.1 == LegalNotice(s.plan.lawFirm)
    ensures r.0.core == s.core.(attemptCount := s.core.attemptCount + 1)
  {
    (Strategy(s.core.(attemptCount := s.core.attemptCount + 1), Legal(s.plan.lawFirm, s.plan.caseNumber, NoticesSent)),
     LegalNotice(s.plan.lawFirm))
  }

  /** fileLawsuit: records the case number, stage CaseFiled. */
  function FileLawsuit(s: Strategy, caseNumber: string): (r: Strategy)
    requires s.plan.Legal?
    ensures r.plan == Legal(s.plan.lawFirm, caseNumber, CaseFiled) && r.core == s.core
  {
    Strategy(s.core, Legal(s.plan.lawFirm, caseNumber, CaseFiled))
  }

  /** LegalActionStrategy::execute: a notice, then a lawsuit unless the
      payment arrived. sendLegalNotice counts the attempt and moves to
      NoticesSent before it sends, so a notice the channel throws on leaves
      the strategy Active at that stage, with no lawsuit filed. */
  function ExecuteLegal(s: Strategy, o: Oracle): (e: Execution)
    requires s.plan.Legal?
    ensures !CanExecute(s.core) ==> e == Execution(s, s.core.status, [], None)
    ensures CanExecute(s.core) ==>
              e.strategy.core.status == e.status && e.strategy.plan.Legal? &&
              e.strategy.core.attemptCount == s.core.attemptCount + 1 &&
              e.thrown == o.send(0)
    ensures CanExecute(s.core) && o.send(0).Some? ==>
              e.status == Active && e.sent == [] &&
              e.strategy.plan == Legal(s.plan.lawFirm, s.plan.caseNumber, NoticesSent)
    ensures CanExecute(s.core) && o.send(0).None? ==>
              e.status == Completed && e.sent == [LegalNotice(s.plan.lawFirm)] &&
              (o.received(0) ==> e.strategy.plan == Legal(s.plan.lawFirm, s.plan.caseNumber, NoticesSent)) &&
              (!o.received(0) ==> e.strategy.plan == Legal(s.plan.lawFirm, o.caseNumber, CaseFiled))
  {
    if !CanExecute(s.core) then Execution(s, s.core.status, [], None)
    else
      var (noticed, notice) := SendLegalNotice(s.(core := s.core.(status := Active)));
      if o.send(0).Some? then
        Execution(noticed, Active, [], o.send(0))
      else if o.received(0) then
        Execution(noticed.(core := noticed.core.(status := Completed)), Completed, [notice], None)
      else
        var filed := FileLawsuit(noticed, o.caseNumber);
        Execution(filed.(core := filed.core.(status := Completed)), Completed, [notice], None)
  }

  function LegalStageToString(st: LegalStage): (r: string) {
    match st
    case CaseFiled => "CaseFiled"
    case Enforcing => "Enforcing"
    case InCourt => "InCourt"
    case JudgmentObtained => "JudgmentObtained"
    case NoticesSent => "NoticesSent"
    case NotStarted => "NotStarted"
  }

  /** Every stage has a name of its own. */
  lemma LegalStageNamesInjective(a: LegalStage, b: LegalStage)
    ensures LegalStageToString(a) == LegalStageToString(b) ==> a == b
    ensures |LegalStageToString(a)| > 0
  {
  }

  function StatusToString(st: StrategyStatus): (r: string) {
    match st
    case Active => "Active"
    case Cancelled => "Cancelled"
    case Completed => "Completed"
    case Failed => "Failed"
    case Pending => "Pending"
  }

  lemma StatusNamesInjective(a: StrategyStatus, b: StrategyStatus)
    ensures StatusToString(a) == StatusToString(b) ==> a == b
  {
  }

  /** A strategy as its constructor leaves it: the settlement rate is in range. */
  predicate WellFormed(s: Strategy) {
    s.plan.Settlement? ==> 0.0 <= s.plan.discountRate <= 1.0
  }

  /** The virtual execute. */
  function Execute(s: Strategy, o: Oracle): (e: Execution)
    requires WellFormed(s)
    ensures TypeOf(e.strategy) == TypeOf(s) && WellFormed(e.strategy)
    ensures e.strategy.core.status == e.status
    ensures !CanExecute(s.core) ==> e == Execution(s, s.core.status, [], None)
  {
    match s.plan
    case Reminder(_, _) => ExecuteReminder(s, o)
    case Settlement(_, _, _, _) => ExecuteSettlement(s, o)
    case Legal(_, _, _) => ExecuteLegal(s, o)
  }

  /** A run of any strategy either ends Completed or Failed, after which it
      can never run again (a second execute changes nothing and sends
      nothing), or is cut short by an exception from the channel, which
      leaves it Active and executable. When the channel accepts every
      message, every run ends final. */
  lemma ExecuteEndsFinal(s: Strategy, o: Oracle, o2: Oracle)
    requires WellFormed(s) && CanExecute(s.core)
    ensures Execute(s, o).strategy.core.status == Execute(s, o).status
    ensures Execute(s, o).thrown.None? <==> Execute(s, o).status in {Completed, Failed}
    ensures Execute(s, o).thrown.Some? ==> Execute(s, o).status == Active && CanExecute(Execute(s, o).strategy.core)
    ensures Execute(s, o).thrown.None? ==>
              !CanExecute(Execute(s, o).strategy.core) &&
              Execute(Execute(s, o).strategy, o2) == Execution(Execute(s, o).strategy, Execute(s, o).status, [], None)
    ensures (forall i: nat :: o.send(i).None?) ==> Execute(s, o).thrown.None?
  {
    if s.plan.Reminder? {
      ReminderRun(s, o);
    }
  }
}
