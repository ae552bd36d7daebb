# Debt-recovery services: a Dafny model of the business core

The repository is a suite of C++ microservices for recovering overdue loans:

- a borrower service (borrowers, loan accounts, payments);
- a communication service (messages to borrowers over e-mail and SMS, and a log of them);
- a risk-assessment service (a rule-based score with an optional random-forest model);
- a recovery-strategy service (automated reminders, settlement offers, legal action);
- an API gateway (authentication, rate limiting, CORS, a registry of back-end services);
- a common library (money, configuration, exceptions, the generic reply);
- a small browser client.

This project models the sequential business logic under the HTTP and SQL
plumbing, as immutable datatypes and pure functions, and proves what that
logic promises.

Each module follows one source file or one group of files:

| module | file | models |
|---|---|---|
| `Exceptions` | exceptions.dfy | `ValidationException`, `DatabaseException` and `CommunicationException`: their `what()` and `getDetail()` strings |
| `Amounts` | money.dfy | `Money`: non-negative amounts, checked arithmetic, comparisons with a one-cent tolerance |
| `Responses` | response.dfy | `Response<T>` and `Response<void>`: factories and JSON form |
| `Configs` | config.dfy | `Config`: the `key=value` line parser, the typed getters, and `std::stoi` as `getInt` uses it |
| `PaymentHistories` | payment_history.dfy | a payment and its Pending → Completed/Failed/Cancelled machine |
| `LoanAccounts` | loan_account.dfy | a loan account: status transition table, payments, missed-payment counters |
| `Borrowers` | borrower.dfy | a borrower: e-mail pattern, activity, eligibility predicates, e-mail masking |
| `CommunicationLogs` | communication_log.dfy | a message log entry: setters, enum codecs with aliases, JSON mapping |
| `CommunicationManagers` | communication_manager.dfy | routing a message to the channel for an account |
| `MockStores` | mock_store.dfy | the in-memory storage the repositories use without a database |
| `LogRepository` | log_repository.dfy | `CommunicationLogRepository` in mock mode |
| `RiskScoring` | risk_scorer.dfy | `RiskAssessment`, `RiskFeatures`, the rule score and the factor tables |
| `RiskRepository` | risk_repository.dfy | `RiskAssessmentRepository` in mock mode and its algorithm column |
| `Strategies` | strategies.dfy | the strategy lifecycle and the three concrete strategies |
| `StrategyManagers` | strategy_manager.dfy | risk combination, strategy choice, the active-strategy map |
| `Middlewares` | middleware.dfy | the gateway's middleware chain |
| `ServiceRegistries` | service_registry.dfy | the gateway's service registry and failure counter |
| `WebClient` | web_helpers.dfy | the browser client's risk colours and segment update |

`Wrappers`, `Text`, `Seqs` and `Json` hold shared helpers: `Option`/`Result`, string and decimal helpers, filters, and a JSON value.

Conventions:

- **Exceptions.** A thrown exception is the `Err` case of a `Result<T, Exception>`. It carries the repository's own exception type, field and message.
- **Outside code as parameters.** The following come in as parameters:
  - the clock (`now`);
  - the payment checker's answers, the generated case number, and whether the strategy channel's `sendMessage` returns or throws on each message (`Strategies.Oracle`; `Strategies.ManagerSends` derives that last verdict from the communication manager's sendMessage as written, missing-channel throw included);
  - the random-forest prediction (`RiskScoring.Scorer`) and the k-means clusterer;
  - each registered channel's own `send` function;
  - the health probe's verdict (`probeOk`);
  - the gateway's final handler.
- **Numbers.** `double` is modelled as `real`.

## Model

| member | source | states |
|---|---|---|
| Exceptions.NewValidation | common/src/exceptions/ValidationException.cpp:6-14 | the stored message is "Validation error [" + field + "]: " + message, so an empty field still gives "Validation error []: "; field and code are kept as given |
| Exceptions.WhatIsMessage | common/src/exceptions/DatabaseException.cpp:14-17 | `what()` of each of the three exceptions gives back exactly the constructed message (the validation one with its prefix) when the text holds no NUL character |
| Exceptions.WhatStopsAtNul | common/src/exceptions/CommunicationException.cpp:16-19 | `what()` is a C string: an embedded NUL cuts the message short |
| Exceptions.ValidationMessageInjective | common/src/exceptions/ValidationException.cpp:11 | the validation text determines field and message whenever the field holds no ']' |
| Exceptions.ValidationMessageAmbiguous | common/src/exceptions/ValidationException.cpp:11 | a field containing "]: " makes two different field/message pairs print the same text |
| Exceptions.DatabaseCodeNameInjective | common/src/exceptions/DatabaseException.cpp:23-46 | each of the seven database error codes prints a name of its own |
| Exceptions.DatabaseDetail | common/src/exceptions/DatabaseException.cpp:19-50 | the detail starts with "Database error [" and ends with the message |
| Exceptions.DatabaseDetailInjective | common/src/exceptions/DatabaseException.cpp:19-50 | the detail string determines the error code and the message |
| Exceptions.CommunicationNamesInjective | common/src/exceptions/CommunicationException.cpp:35-68 | the code names and the channel names each identify their value |
| Exceptions.CommunicationDetail | common/src/exceptions/CommunicationException.cpp:31-74 | the detail starts with "Communication error [" and ends with the message |
| Exceptions.CommunicationDetailInjective | common/src/exceptions/CommunicationException.cpp:31-74 | the detail string determines error code, channel and message |
| Amounts.NewMoney | common/src/models/Money.cpp:29-35 | construction succeeds exactly for non-negative amounts and keeps the amount; a negative one is rejected with "Money cannot be negative" |
| Amounts.SetAmount | common/src/models/Money.cpp:66-73 | setAmount accepts and rejects exactly what the constructor does |
| Amounts.Add | common/src/models/Money.cpp:75-78 | a sum is never below either operand and is always a valid amount |
| Amounts.Sub | common/src/models/Money.cpp:80-88 | subtraction fails with "Insufficient funds" exactly when the subtrahend is larger; otherwise result + subtrahend = minuend |
| Amounts.Mul | common/src/models/Money.cpp:90-97 | a negative factor is rejected; otherwise the amount is scaled |
| Amounts.Div | common/src/models/Money.cpp:99-110 | a zero divisor and a negative divisor are rejected with their own messages, zero checked first; otherwise result · divisor = amount |
| Amounts.AddAssign | common/src/models/Money.cpp:127-131 | += agrees with + |
| Amounts.SubAssign | common/src/models/Money.cpp:133-142 | -= agrees with -, so a failing -= leaves the amount as it was |
| Amounts.SubAfterAdd | common/src/models/Money.cpp:75-88 | subtracting what was added gives the original amount back |
| Amounts.DivAfterMul | common/src/models/Money.cpp:90-110 | dividing by a positive factor undoes multiplying by it |
| Amounts.ComparisonsExclusive | common/src/models/Money.cpp:112-125 | at most one of <, == and > holds for any two amounts |
| Amounts.ComparisonsNotExhaustive | common/src/models/Money.cpp:112-125 | at a distance of exactly one cent none of <, == and > holds |
| Amounts.DerivedComparisons | common/src/models/Money.cpp:169-182 | >=, <= and != in closed form; >= and <= together hold on equality and at exactly one cent apart |
| Amounts.EqualityReflexiveSymmetric | common/src/models/Money.cpp:112-120 | tolerant equality is reflexive and symmetric, and < is transitive |
| Amounts.EqualityNotTransitive | common/src/models/Money.cpp:112-115 | tolerant equality is not transitive: 0 == 0.006 == 0.012 but 0 != 0.012 |
| Responses.Success | common/include/models/Response.h:31-34 | success() reports success, carries the data and keeps message and status code |
| Responses.Error | common/include/models/Response.h:36-39 | error() reports failure without data and keeps message and status code |
| Responses.NotFound | common/include/models/Response.h:41-44 | notFound() reports failure with status 404 and no data |
| Responses.BadRequest | common/include/models/Response.h:46-49 | badRequest() reports failure with status 400 and no data |
| Responses.VoidSuccess | common/include/models/Response.h:103-106 | the void success() reports success and keeps message and code |
| Responses.VoidError | common/include/models/Response.h:108-111 | the void error() reports failure and keeps message and code |
| Responses.VoidNotFound | common/include/models/Response.h:113-116 | the void notFound() reports failure with status 404 |
| Responses.VoidBadRequest | common/include/models/Response.h:118-121 | the void badRequest() reports failure with status 400 |
| Responses.ToJson | common/include/models/Response.h:58-84 | exactly four members; `data` is the payload's own JSON, or null without payload |
| Responses.VoidToJson | common/include/models/Response.h:127-135 | exactly four members with `data` always null |
| Responses.HeaderRoundTrip | common/include/models/Response.h:58-84 | success flag, message and status code read back unchanged from the JSON, whatever the payload |
| Responses.FactoriesSuccessIffData | common/include/models/Response.h:31-49 | every factory yields data exactly when it reports success |
| Responses.VoidMatchesEmptyResponse | common/include/models/Response.h:127-135 | a void reply serialises like a payload-less `Response<T>` with the same header |
| Configs.Unquote | common/src/utils/Config.cpp:126-133 | one pair of matching surrounding quotes ('…' or "…") is removed from a value of length at least 2; anything else is kept |
| Configs.ParsePair | common/src/utils/Config.cpp:97-133 | a line yields a pair exactly when it is neither empty nor a raw comment and contains '='; the key has no surrounding blanks |
| Configs.ParseLine | common/src/utils/Config.cpp:97-139 | skipped lines leave the map alone; no key is ever dropped and the empty key is never stored |
| Configs.SplitAtFirstEquals | common/src/utils/Config.cpp:110-123 | the line splits at its first '=': further '=' signs belong to the value |
| Configs.QuotedLineRoundTrip | common/src/utils/Config.cpp:97-139 | parsing `key = "value"` stores exactly value, whatever it contains, overwriting any earlier entry |
| Configs.PlainLineRoundTrip | common/src/utils/Config.cpp:97-139 | parsing `key=value` with no blanks or quotes around value stores value as written |
| Configs.IndentedCommentIsAnEntry | common/src/utils/Config.cpp:105-123 | the comment test looks at the raw first character only: an indented '#' line is stored under a key starting with '#' |
| Configs.GetString | common/src/utils/Config.cpp:143-151 | the stored value, or the default for a missing key |
| Configs.Get | common/src/utils/Config.cpp:212-220 | a value exactly when the key is present, and then the stored one |
| Configs.Set | common/src/utils/Config.cpp:224-227 | set adds the key and keeps the loaded flag |
| Configs.Clear | common/src/utils/Config.cpp:250-254 | clear removes every key and resets the loaded flag |
| Configs.SetGetClear | common/src/utils/Config.cpp:143-254 | set then get returns the value set, other keys are unaffected, and after clear every lookup falls back to its default |
| Configs.StoI | common/src/utils/Config.cpp:153-168 | std::stoi's result always lies in the 32-bit range |
| Configs.StoIReads | common/src/utils/Config.cpp:153-168 | on white space, an optional sign, digits and then text that does not begin with a digit, std::stoi gives the signed number when it fits in 32 bits and an error otherwise; white space and trailing text do not matter |
| Configs.StoINoDigits | common/src/utils/Config.cpp:153-168 | text with no digit after the white space and the optional sign is an error |
| Configs.StoIRoundTrip | common/src/utils/Config.cpp:153-168 | std::stoi reads back std::to_string of every 32-bit integer |
| Configs.GetInt | common/src/utils/Config.cpp:153-168 | a missing key or text that is no number gives the default; otherwise the number std::stoi reads from the stored text |
| Configs.GetIntAfterSet | common/src/utils/Config.cpp:153-168 | an integer stored as text is read back by getInt |
| Configs.GetIntOfText | common/src/utils/Config.cpp:153-168 | text that does not start with a number reads as the default |
| Configs.GetBool | common/src/utils/Config.cpp:187-205 | a missing key gives the default |
| Configs.GetBoolVocabulary | common/src/utils/Config.cpp:187-205 | true/1/yes/on read as true and false/0/no/off as false in any letter case; anything else gives the default; the two word sets are disjoint |
| Configs.GetBoolIgnoresCase | common/src/utils/Config.cpp:187-205 | "TRUE" and "Yes" read as true, "OFF" as false |
| PaymentHistories.Validate | borrower-service/src/models/PaymentHistory.cpp:143-158 | "" exactly for a valid record; otherwise the first failing check in the order payment id, account id |
| PaymentHistories.AmountCheckNeverFires | borrower-service/src/models/PaymentHistory.cpp:143-158 | the amount check compares with Money(0) at one-cent tolerance, and Money is never negative, so it never fires: validity depends on the two ids only |
| PaymentHistories.NewPaymentHistory | borrower-service/src/models/PaymentHistory.cpp:22-44 | a new payment is Pending without notes and with the given data; it is refused exactly when an id is not positive, with the first failing check's message |
| PaymentHistories.LatenessProperties | borrower-service/src/models/PaymentHistory.cpp:86-93 | a payment without due date is never late, paying on the due day is on time, and a later payment date is never less late |
| PaymentHistories.MarkCompleted | borrower-service/src/models/PaymentHistory.cpp:100-108 | succeeds exactly from Pending, giving Completed with nothing else changed; otherwise it throws |
| PaymentHistories.MarkFailed | borrower-service/src/models/PaymentHistory.cpp:110-119 | succeeds exactly from Pending, giving Failed with the reason as notes; otherwise it throws |
| PaymentHistories.Cancel | borrower-service/src/models/PaymentHistory.cpp:121-130 | succeeds from every status but Completed, Failed and Cancelled included, giving Cancelled with the reason as notes |
| PaymentHistories.SetNotes | borrower-service/src/models/PaymentHistory.cpp:132-136 | only the notes and the update time change |
| PaymentHistories.StatusMachine | borrower-service/src/models/PaymentHistory.cpp:95-130 | Pending is the only non-terminal status, every successful transition ends terminal, terminal payments cannot complete or fail, and Completed cannot be cancelled |
| PaymentHistories.CodecRoundTrip | borrower-service/src/models/PaymentHistory.cpp:175-249 | parsing inverts printing for statuses and methods, and a string parses exactly when some value prints as it |
| LoanAccounts.NewLoanAccount | borrower-service/src/models/LoanAccount.cpp:9-22 | a new account owes the full loan amount, is on time and has no delinquency |
| LoanAccounts.TransitionTable | borrower-service/src/models/LoanAccount.cpp:67-76 | the allowed changes are exactly OnTime→Delayed, Delayed→OnTime/Partial and Partial→OnTime/WrittenOff: no self-loops, WrittenOff absorbing and reached only from Partial |
| LoanAccounts.UpdateStatus | borrower-service/src/models/LoanAccount.cpp:57-65 | succeeds exactly on an allowed change, altering only status and update time; otherwise it throws and the account stays as it was |
| LoanAccounts.MarkPaymentMissed | borrower-service/src/models/LoanAccount.cpp:78-87 | one more missed payment and 30 more days past due in every case; from the second miss on the status moves to Delayed, and when that move is not allowed it throws with the counters already bumped |
| LoanAccounts.ThirdMissThrows | borrower-service/src/models/LoanAccount.cpp:78-87 | from a new account the first miss keeps it on time, the second makes it Delayed, and the third throws, leaving 3 misses and 90 days past due |
| LoanAccounts.RecordPayment | borrower-service/src/models/LoanAccount.cpp:89-103 | a negative payment and one above the balance are rejected with their own messages; otherwise the balance drops by exactly the amount and stays non-negative |
| LoanAccounts.PaymentsKeepBalanceNonNegative | borrower-service/src/models/LoanAccount.cpp:89-103 | no sequence of payments can drive the balance below zero |
| LoanAccounts.IncrementDaysPastDue | borrower-service/src/models/LoanAccount.cpp:105-112 | positive days are added; a non-positive argument changes nothing |
| LoanAccounts.Validate | borrower-service/src/models/LoanAccount.cpp:119-138 | "" exactly for a valid account; otherwise the first failing check in the order account id, borrower id, loan amount, interest rate |
| LoanAccounts.StringToStatus | borrower-service/src/models/LoanAccount.cpp:164-185 | a parsed status prints as the input up to letter case; unknown strings throw |
| LoanAccounts.StatusCodec | borrower-service/src/models/LoanAccount.cpp:140-185 | parsing inverts printing, ignores letter case, and fails exactly on strings matching no status name case-insensitively |
| Borrowers.NewBorrower | borrower-service/src/models/Borrower.cpp:10-19 | a new borrower is active, has no e-mail, no income and no inactivity reason |
| Borrowers.EmailSplit | borrower-service/src/models/Borrower.cpp:23 | finds the first '@' and the last '.' after it, exactly when both exist |
| Borrowers.ValidEmailMatchesPattern | borrower-service/src/models/Borrower.cpp:23 | the computed check (first '@', last later '.') accepts exactly the addresses the regular expression matches |
| Borrowers.SetEmail | borrower-service/src/models/Borrower.cpp:21-31 | an address is stored exactly when it matches the pattern; otherwise it throws and the e-mail is unchanged |
| Borrowers.SetMonthlyIncome | borrower-service/src/models/Borrower.cpp:33-47 | a non-negative income is stored; a negative one throws and leaves the income unchanged |
| Borrowers.SetActive | borrower-service/src/models/Borrower.cpp:49-53 | the borrower becomes active and keeps the earlier inactivity reason |
| Borrowers.SetInactive | borrower-service/src/models/Borrower.cpp:55-61 | the borrower becomes inactive with the reason and time recorded; nothing else changes |
| Borrowers.FullName | borrower-service/src/models/Borrower.cpp:83-86 | first name, one space, last name |
| Borrowers.EligibilityRelations | borrower-service/src/models/Borrower.cpp:93-153 | canContact and canSendCommunication agree; recovery eligibility implies contactability; setInactive disables both, and setActive makes the borrower contactable exactly when an e-mail is known |
| Borrowers.NewBorrowerContact | borrower-service/src/models/Borrower.cpp:10-31 | a new borrower is active but not contactable until a valid e-mail is set |
| Borrowers.MaskEmail | borrower-service/src/models/Borrower.cpp:108-122 | "" stays ""; an address without '@' or starting with '@' is returned as is; otherwise the first character, "*****" and everything from the first '@' |
| Borrowers.GetMaskedEmail | borrower-service/src/models/Borrower.cpp:108-122 | masking the stored address |
| Borrowers.MaskEmailProperties | borrower-service/src/models/Borrower.cpp:108-122 | masking keeps emptiness and the presence of '@', and masking twice is masking once |
| CommunicationLogs.NewLog | communication-service/src/models/CommunicationLog.cpp:12-31 | a new log has id 0, is Pending, and has no strategy, send time, delivery time or error |
| CommunicationLogs.SetStrategyId | communication-service/src/models/CommunicationLog.cpp:78-82 | only the strategy and the update time change |
| CommunicationLogs.SetMessageStatus | communication-service/src/models/CommunicationLog.cpp:84-88 | only the status and the update time change |
| CommunicationLogs.SetSentAt | communication-service/src/models/CommunicationLog.cpp:90-94 | only the send time and the update time change |
| CommunicationLogs.SetDeliveredAt | communication-service/src/models/CommunicationLog.cpp:96-100 | only the delivery time and the update time change |
| CommunicationLogs.SetErrorMessage | communication-service/src/models/CommunicationLog.cpp:102-106 | only the error and the update time change |
| CommunicationLogs.SettersCommute | communication-service/src/models/CommunicationLog.cpp:78-106 | setters of different fields commute |
| CommunicationLogs.StringToChannelType | communication-service/src/models/CommunicationLog.cpp:127-135 | accepts exactly the five storage names and the alias "VoiceCall"; anything else throws invalid_argument |
| CommunicationLogs.StringToMessageStatus | communication-service/src/models/CommunicationLog.cpp:150-158 | accepts exactly the five status names and "Opened" (read as Bounced); anything else throws invalid_argument |
| CommunicationLogs.CodecRoundTrips | communication-service/src/models/CommunicationLog.cpp:114-158 | both codecs round-trip; "VoiceCall" and "Phone" both parse to VoiceCall, which prints as "Phone", and "Opened" comes back as "Bounced" |
| CommunicationLogs.JsonToInt | communication-service/src/models/CommunicationLog.cpp:216-217 | get<int>(): an integer as it is, a floating-point number truncated toward zero, a boolean as 1 or 0, anything else a type error |
| CommunicationLogs.FromJson | communication-service/src/models/CommunicationLog.cpp:213-233 | a read log starts afresh (id 0, no times, no error); the strategy is set exactly when present and not null; a missing status means Pending; a missing account id throws |
| CommunicationLogs.ToJson | communication-service/src/models/CommunicationLog.cpp:161-211 | strategy null when absent, channel and status as their storage names |
| CommunicationLogs.JsonRoundTrip | communication-service/src/models/CommunicationLog.cpp:161-233 | reading a serialised log back keeps account, borrower, strategy, channel, content and status, and resets id, times and error |
| CommunicationManagers.EmailChannel | communication-service/src/channels/EmailChannel.cpp:9-17 | the e-mail channel is named "email" and reports every send as delivered |
| CommunicationManagers.RegisterChannel | communication-service/src/managers/CommunicationManager.cpp:7-21 | a null channel and an empty name are rejected with their own messages; otherwise the channel is stored under its name, replacing an earlier one, and no other channel changes |
| CommunicationManagers.ResolveRecipient | communication-service/src/managers/CommunicationManager.cpp:39-46 | "user_" followed by the decimal account id, which reads back as the id; non-positive ids are rejected |
| CommunicationManagers.ResolveChannel | communication-service/src/managers/CommunicationManager.cpp:48-51 | "email" exactly for even ids and "sms" exactly for odd ones, negative ids included |
| CommunicationManagers.SendMessage | communication-service/src/managers/CommunicationManager.cpp:23-37 | checks in order: empty message, then account id, then a missing channel, which throws; otherwise the answer is the channel's own send result |
| CommunicationManagers.SendMessageOrFalse | communication-service/tests/test_communication.cpp:43-52 | the behaviour the tests expect: a missing channel answers false; every other outcome is sendMessage's |
| CommunicationManagers.MissingChannelThrows | communication-service/src/managers/CommunicationManager.cpp:31-35 | on the inputs of the "No channel registered" test sendMessage throws where false is expected; with only e-mail registered the odd id 1001 throws too |
| CommunicationManagers.BothChannelsDeliver | communication-service/src/managers/CommunicationManager.cpp:23-37 | with both service channels registered every valid request is delivered |
| MockStores.Create | communication-service/src/repositories/CommunicationLogRepository.cpp:486-493 | the record is appended unchanged at the end and returned; the counter is bumped but never written into the record |
| MockStores.GetById | communication-service/src/repositories/CommunicationLogRepository.cpp:495-509 | the first record with the id, found exactly when one exists; otherwise RecordNotFound with the id in the message |
| MockStores.Query | communication-service/src/repositories/CommunicationLogRepository.cpp:516-540 | only matching stored records, and every matching record |
| MockStores.QueryAfterCreate | communication-service/src/repositories/CommunicationLogRepository.cpp:516-540 | queries are order-preserving filters: a new record joins exactly the results it matches, at the end |
| MockStores.Update | communication-service/src/repositories/CommunicationLogRepository.cpp:542-558 | overwrites the first record with the same id and nothing else, keeping the length; throws RecordNotFound without a match |
| MockStores.DeleteById | communication-service/src/repositories/CommunicationLogRepository.cpp:454-465 | erases only the first record with the id, others keeping their order; true exactly when one existed |
| MockStores.Recent | risk-assessment-service/src/repositories/RiskAssessmentRepository.cpp:272-281 | the first min(size, limit) records in insertion order, none for a non-positive limit |
| MockStores.CreateThenLookup | communication-service/src/repositories/CommunicationLogRepository.cpp:486-509 | a record with a new id is found after creation, and deleting it restores the earlier contents |
| MockStores.IdsNeverAssigned | communication-service/src/repositories/CommunicationLogRepository.cpp:486-493 | since create never assigns an id, records built with id 0 stay unreachable under every other id |
| LogRepository.CreateLog | communication-service/src/repositories/CommunicationLogRepository.cpp:486-493 | the log is appended as given and returned |
| LogRepository.GetLogById | communication-service/src/repositories/CommunicationLogRepository.cpp:495-509 | a stored log with the id exactly when one exists; otherwise "Communication log not found: " + id with RecordNotFound |
| LogRepository.GetAllLogs | communication-service/src/repositories/CommunicationLogRepository.cpp:511-514 | all stored logs in storage order |
| LogRepository.GetLogsByAccountId | communication-service/src/repositories/CommunicationLogRepository.cpp:516-527 | exactly the stored logs of the account |
| LogRepository.GetLogsByBorrowerId | communication-service/src/repositories/CommunicationLogRepository.cpp:529-540 | exactly the stored logs of the borrower |
| LogRepository.GetLogsByChannelType | communication-service/src/repositories/CommunicationLogRepository.cpp:242-253 | exactly the stored logs of the channel |
| LogRepository.GetLogsByStatus | communication-service/src/repositories/CommunicationLogRepository.cpp:288-299 | exactly the stored logs with the status |
| LogRepository.GetLogsByDateRange | communication-service/src/repositories/CommunicationLogRepository.cpp:337-348 | exactly the stored logs created within [from, to] |
| LogRepository.DateRangeInclusive | communication-service/src/repositories/CommunicationLogRepository.cpp:337-348 | a log created at either bound is found |
| LogRepository.EmptyRangeFindsNothing | communication-service/src/repositories/CommunicationLogRepository.cpp:337-348 | a window whose start lies after its end selects nothing |
| LogRepository.DeleteLog | communication-service/src/repositories/CommunicationLogRepository.cpp:454-465 | true exactly when a log with the id exists, which is then removed; otherwise nothing changes |
| LogRepository.UpdateLog | communication-service/src/repositories/CommunicationLogRepository.cpp:542-558 | succeeds exactly when a log with the same id exists, keeping the length; otherwise "Communication log not found for update: " + id |
| LogRepository.QueriesAfterCreate | communication-service/src/repositories/CommunicationLogRepository.cpp:516-527 | account, status and date queries grow by a new log exactly when it matches, at the end |
| LogRepository.LookupUpdateDelete | communication-service/src/repositories/CommunicationLogRepository.cpp:495-558 | a log with a new id can be fetched, replaced in place and deleted |
| LogRepository.FreshLogsUnreachableById | communication-service/src/repositories/CommunicationLogRepository.cpp:486-509 | logs as the constructor builds them (id 0) cannot be fetched by any other id |
| RiskRepository.CreateAssessment | risk-assessment-service/src/repositories/RiskAssessmentRepository.cpp:346-355 | the assessment is appended unchanged and returned |
| RiskRepository.GetAssessmentById | risk-assessment-service/src/repositories/RiskAssessmentRepository.cpp:357-374 | a stored assessment with the id exactly when one exists; otherwise RecordNotFound |
| RiskRepository.GetAllAssessments | risk-assessment-service/src/repositories/RiskAssessmentRepository.cpp:376-379 | all stored assessments in order |
| RiskRepository.GetAssessmentsByAccountId | risk-assessment-service/src/repositories/RiskAssessmentRepository.cpp:381-392 | exactly the stored assessments of the account |
| RiskRepository.GetAssessmentsByBorrowerId | risk-assessment-service/src/repositories/RiskAssessmentRepository.cpp:394-405 | exactly the stored assessments of the borrower |
| RiskRepository.GetAssessmentsByRiskLevel | risk-assessment-service/src/repositories/RiskAssessmentRepository.cpp:228-239 | exactly the stored assessments of the level |
| RiskRepository.GetRecentAssessments | risk-assessment-service/src/repositories/RiskAssessmentRepository.cpp:272-281 | despite the name, the oldest min(size, limit) assessments in insertion order; none for a non-positive limit |
| RiskRepository.DeleteAssessment | risk-assessment-service/src/repositories/RiskAssessmentRepository.cpp:314-325 | true exactly when an assessment with the id exists, which is then removed; otherwise nothing changes |
| RiskRepository.LevelQueriesPartition | risk-assessment-service/src/repositories/RiskAssessmentRepository.cpp:228-239 | every stored assessment appears in the query for its level and in no other |
| RiskRepository.QueriesAfterCreate | risk-assessment-service/src/repositories/RiskAssessmentRepository.cpp:381-392 | account and level queries grow by a new assessment exactly when it matches |
| RiskRepository.FreshAssessmentsUnreachableById | risk-assessment-service/src/repositories/RiskAssessmentRepository.cpp:346-374 | assessments as the constructor builds them (id 0) cannot be fetched by any other id |
| RiskRepository.StringToAlgorithm | risk-assessment-service/src/repositories/RiskAssessmentRepository.cpp:417-420 | RandomForest exactly for "RandomForest"; anything else is the rule engine |
| RiskRepository.AlgorithmRoundTrip | risk-assessment-service/src/repositories/RiskAssessmentRepository.cpp:49-50 | decoding inverts both the column encoding and the JSON label, which differ only in spelling the rule engine ("RuleBase" against "RuleBased") |
| RiskScoring.LevelMonotone | risk-assessment-service/src/models/RiskScorer.cpp:37-48 | the level never falls as the score rises |
| RiskScoring.LevelIntervals | risk-assessment-service/src/models/RiskScorer.cpp:37-48 | on [0, 1] the levels are the intervals [0, 0.33), [0.33, 0.67) and [0.67, 1] |
| RiskScoring.NewAssessment | risk-assessment-service/src/models/RiskScorer.cpp:13-35 | a score outside [0, 1] is rejected; otherwise the level is derived from the score, with no id and no factors yet |
| RiskScoring.AddRiskFactor | risk-assessment-service/src/models/RiskScorer.cpp:50-54 | sets or overwrites one factor, keeps every other one, and refreshes the assessment date |
| RiskScoring.StringToRiskLevel | risk-assessment-service/src/models/RiskScorer.cpp:110-125 | unknown level names fall back to Medium |
| RiskScoring.RiskLevelCodec | risk-assessment-service/src/models/RiskScorer.cpp:95-125 | parsing inverts printing on the three levels and the three names |
| RiskScoring.ValidateFeatures | risk-assessment-service/src/models/RiskScorer.cpp:132-152 | features pass exactly with positive ids and a rate in [0, 1]; otherwise the first failing check in the order account id, borrower id, rate |
| RiskScoring.NegativeAmountsNeverReported | risk-assessment-service/src/models/RiskScorer.cpp:132-152 | amounts are Money, never negative, so "Negative amounts" is never reported |
| RiskScoring.DaysPastDuePart | risk-assessment-service/src/models/RiskScorer.cpp:231-261 | the overdue part lies in [0, 0.40], is at least 0.20 from 30 days on, and below 0.20 before |
| RiskScoring.DaysPastDuePartMonotone | risk-assessment-service/src/models/RiskScorer.cpp:231-261 | more days overdue never lower the overdue part |
| RiskScoring.MissedPaymentsPart | risk-assessment-service/src/models/RiskScorer.cpp:231-261 | ten points per missed payment, capped at thirty |
| RiskScoring.DebtRatio | risk-assessment-service/src/models/RiskScorer.cpp:231-261 | the ratio is non-negative and below 1 while the balance is within the loan |
| RiskScoring.EmploymentRiskContribution | risk-assessment-service/src/models/RiskScorer.cpp:400-418 | every employment status contributes 0, 0.05 or 0.10 |
| RiskScoring.AccountRiskContribution | risk-assessment-service/src/models/RiskScorer.cpp:441-460 | every account status contributes 0, 0.02, 0.04, 0.06 or 0.10 |
| RiskScoring.ContributionsMirrorEncodings | risk-assessment-service/src/models/RiskScorer.cpp:380-460 | each contribution is one tenth of the status's distance from the safest model encoding |
| RiskScoring.RuleBasedScore | risk-assessment-service/src/models/RiskScorer.cpp:231-261 | the score never exceeds 1, is non-negative for non-negative counters, and is at least 0.70 from 90 days and 6 misses on |
| RiskScoring.RuleScoreMonotone | risk-assessment-service/src/models/RiskScorer.cpp:231-261 | a worse payment history never lowers the rule score |
| RiskScoring.CleanAccountIsLowRisk | risk-assessment-service/src/models/RiskScorer.cpp:231-261 | a current, employed account with nothing owed or overdue scores 0 and is Low risk |
| RiskScoring.Clamp | risk-assessment-service/src/models/RiskScorer.cpp:177-181 | the result lies in [0, 1] and equals the input there |
| RiskScoring.FeatureContributions | risk-assessment-service/src/models/RiskScorer.cpp:462-473 | exactly the five factor names, with the table contributions for employment and account status |
| RiskScoring.AssessRisk | risk-assessment-service/src/models/RiskScorer.cpp:160-187 | invalid features fail with validate's error; otherwise the score is the clamped model or rule score, the algorithm says which, the level follows the score and exactly the five factors are attached |
| RiskScoring.AllFactorsAttached | risk-assessment-service/src/models/RiskScorer.cpp:181-184 | the factor loop leaves exactly the contribution map behind |
| RiskScoring.AssessRiskNeverRejectsScore | risk-assessment-service/src/models/RiskScorer.cpp:160-187 | after clamping the construction cannot throw: valid features always yield an assessment |
| Strategies.NewCore | recovery-strategy-service/src/strategies/RecoveryStrategy.cpp:6-18 | a new strategy is Pending with no attempts and nothing recovered, expecting the given amount |
| Strategies.CanExecuteStates | recovery-strategy-service/src/strategies/RecoveryStrategy.cpp:20-24 | a strategy can run exactly when it is not Completed, Failed or Cancelled, so a new one can |
| Strategies.NewReminder | recovery-strategy-service/src/strategies/AutomatedReminderStrategy.cpp:9-46 | negative account id, borrower id, reminder count or interval and a missing checker are rejected in that order; otherwise a new strategy with the given settings |
| Strategies.ReminderLoopOutcome | recovery-strategy-service/src/strategies/AutomatedReminderStrategy.cpp:62-88 | the loop in closed form: a throwing send before the first success stops the loop at once, with that many reminders counted and the status untouched; otherwise a success within the budget completes after as many reminders as failed checks, and without one the whole budget is sent and the final check decides |
| Strategies.ExecuteReminder | recovery-strategy-service/src/strategies/AutomatedReminderStrategy.cpp:53-84 | a strategy that cannot run sends nothing, throws nothing and keeps its status; a run keeps the plan, and the returned status is the strategy's own |
| Strategies.ReminderRun | recovery-strategy-service/src/strategies/AutomatedReminderStrategy.cpp:53-88 | if the f-th send throws before the first success, f reminders go out, the exception escapes and the strategy stays Active; otherwise, if the k-th check is the first success within the budget, exactly k reminders go out and the run completes, and without one the final check decides; the attempt count never passes the maximum |
| Strategies.NeverPaidGetsThreeReminders | recovery-strategy-service/src/strategies/AutomatedReminderStrategy.cpp:53-84 | with the defaults, a borrower who never pays and a channel that accepts every message, three reminders go out and the strategy fails |
| Strategies.ManagerSends | communication-service/src/managers/CommunicationManager.cpp:23-37 | a send to the account throws exactly when the communication manager's sendMessage does, and throws the same exception |
| Strategies.NoChannelReminderThrows | communication-service/src/managers/CommunicationManager.cpp:31-35 | with no channel registered, a reminder to a valid account throws "Communication channel not found" on its first send; nothing is sent and the strategy stays Active with no attempt counted |
| Strategies.AccountZeroReminderThrows | communication-service/src/managers/CommunicationManager.cpp:39-46 | a reminder strategy may be built for account 0, but the manager refuses that account, so the first reminder throws "Invalid accountId"; nothing is sent and the strategy stays Active with no attempt counted |
| Strategies.NewSettlement | recovery-strategy-service/src/strategies/SettlementOfferStrategy.cpp:8-33 | a rate outside [0, 1] and a non-positive validity are rejected in that order; otherwise the minimum acceptable amount is the discounted one |
| Strategies.SettlementAmount | recovery-strategy-service/src/strategies/SettlementOfferStrategy.cpp:40-44 | the expected amount less the discount, never more than expected |
| Strategies.ExecuteSettlement | recovery-strategy-service/src/strategies/SettlementOfferStrategy.cpp:46-91 | one attempt more, counted before the offer is sent; if the send throws, the exception escapes and the strategy stays Active; otherwise one offer of the settlement amount, Completed with the settlement recorded exactly when the full expected amount was paid, Failed otherwise |
| Strategies.SettlementNeedsFullAmount | recovery-strategy-service/src/strategies/SettlementOfferStrategy.cpp:60-91 | a borrower who pays exactly the offered settlement makes the offer fail whenever the discount is positive |
| Strategies.NewLegal | recovery-strategy-service/src/strategies/LegalActionStrategy.cpp:10-32 | an empty firm name and a missing checker are rejected in that order; a new case starts NotStarted with no case number |
| Strategies.SendLegalNotice | recovery-strategy-service/src/strategies/LegalActionStrategy.cpp:52-65 | one notice from the firm, one attempt more, stage NoticesSent |
| Strategies.FileLawsuit | recovery-strategy-service/src/strategies/LegalActionStrategy.cpp:67-74 | records the case number and moves to CaseFiled |
| Strategies.ExecuteLegal | recovery-strategy-service/src/strategies/LegalActionStrategy.cpp:52-105 | one attempt more and stage NoticesSent before the notice is sent; if the send throws, the exception escapes and the case stays Active with no lawsuit; otherwise it completes after one notice, and the case is filed with a new number exactly when no payment came in |
| Strategies.LegalStageNamesInjective | recovery-strategy-service/src/strategies/LegalActionStrategy.cpp:113-132 | the six stages have six distinct non-empty names |
| Strategies.StatusNamesInjective | recovery-strategy-service/src/strategies/AutomatedReminderStrategy.cpp:92-109 | the five statuses have distinct names |
| Strategies.Execute | recovery-strategy-service/src/strategies/AutomatedReminderStrategy.cpp:53-58 | execute keeps the strategy's kind and returns the strategy's own status; a strategy that cannot run is left alone |
| Strategies.ExecuteEndsFinal | recovery-strategy-service/src/strategies/AutomatedReminderStrategy.cpp:53-88 | a run throws exactly when it does not end Completed or Failed; a throw leaves the strategy Active and runnable; a run that returns is final, so a second execute changes nothing and sends nothing; with a channel that accepts every message, every run returns |
| StrategyManagers.NewManager | recovery-strategy-service/src/managers/StrategyManager.cpp:7-25 | a missing checker and a missing communication service are rejected in that order; a new manager is untrained with no active strategy |
| StrategyManagers.TrainModels | recovery-strategy-service/src/managers/StrategyManager.cpp:27-48 | after training the models are ready and the active map is unchanged |
| StrategyManagers.ClusterToRiskLevel | recovery-strategy-service/src/managers/StrategyManager.cpp:107-120 | clusters 0, 1 and 2 are Low, Medium and High; any other id throws |
| StrategyManagers.MaxLevel | recovery-strategy-service/src/managers/StrategyManager.cpp:122-154 | the higher of two levels |
| StrategyManagers.CombineAnalysis | recovery-strategy-service/src/managers/StrategyManager.cpp:122-154 | fails exactly on an unknown cluster |
| StrategyManagers.CombineIsMax | recovery-strategy-service/src/managers/StrategyManager.cpp:122-154 | the combined level is the maximum of the score's level and the cluster's level |
| StrategyManagers.RecommendedStrategy | recovery-strategy-service/src/managers/StrategyManager.cpp:77-91 | Low risk gets reminders, High risk legal action, Medium the settlement |
| StrategyManagers.CreateStrategy | recovery-strategy-service/src/managers/StrategyManager.cpp:156-173 | the strategy created is the recommended kind for the level, fresh for the account; only the reminder constructor can refuse |
| StrategyManagers.AnalyzeAccount | recovery-strategy-service/src/managers/StrategyManager.cpp:55-93 | refused before training; otherwise the score lies in [0, 1], the level is at least the score's and the cluster's, and the recommendation follows the level |
| StrategyManagers.TrainedAnalysisUsesForest | recovery-strategy-service/src/managers/StrategyManager.cpp:27-48 | once trained the manager always scores with the forest, never with the rules |
| StrategyManagers.GetActiveStrategy | recovery-strategy-service/src/managers/StrategyManager.cpp:228-241 | the stored strategy exactly when the account has one |
| StrategyManagers.AssignAndExecute | recovery-strategy-service/src/managers/StrategyManager.cpp:175-200 | an account with an active strategy is refused; a created strategy's run fails exactly when its channel throws; a run that returns is of the recommended kind, threw nothing, and adds at most this account's entry |
| StrategyManagers.AssignWithFullAnalysis | recovery-strategy-service/src/managers/StrategyManager.cpp:202-226 | refused for an account with an active strategy, then before training |
| StrategyManagers.FullAnalysisAssigns | recovery-strategy-service/src/managers/StrategyManager.cpp:202-226 | a full analysis fails as the analysis does, or assigns exactly as assignAndExecute with the level found |
| StrategyManagers.ActiveMapNeverGrows | recovery-strategy-service/src/managers/StrategyManager.cpp:191-197 | a strategy run either throws or ends Completed or Failed, so a successful assignment leaves the manager unchanged |
| StrategyManagers.AnalysedMapNeverGrows | recovery-strategy-service/src/managers/StrategyManager.cpp:202-226 | the same holds when the level comes from a full analysis |
| StrategyManagers.FreshRunNotKept | recovery-strategy-service/src/managers/StrategyManager.cpp:189-199 | a freshly created strategy either throws, leaving the manager as it was, or finishes its run and is not kept |
| StrategyManagers.CancelStrategy | recovery-strategy-service/src/managers/StrategyManager.cpp:243-252 | removes exactly that account's entry; true exactly when there was one |
| StrategyManagers.CancelKeepsOthers | recovery-strategy-service/src/managers/StrategyManager.cpp:243-252 | cancelling one account leaves every other account's strategy in place |
| Middlewares.Header | api-gateway/src/middleware/Middleware.cpp:65 | the header's value, or "" when it is absent |
| Middlewares.ErrorBody | api-gateway/src/middleware/Middleware.cpp:84-89 | the error object carries success false, the message and the status code |
| Middlewares.Answer | api-gateway/src/middleware/Middleware.cpp:91-92 | sets status and body and declares JSON content |
| Middlewares.Authenticate | api-gateway/src/middleware/Middleware.cpp:49-96 | public paths and a disabled check always pass |
| Middlewares.AuthenticationDecision | api-gateway/src/middleware/Middleware.cpp:49-110 | besides public paths and a disabled check, a request passes exactly when its API key is one of the two accepted ones or its Authorization header starts with "Bearer eyJ" |
| Middlewares.ClientIdentifier | api-gateway/src/middleware/Middleware.cpp:145-169 | the forwarded-for value up to its first comma, else "apikey:" + key, else "unknown" |
| Middlewares.FirstForwardedHop | api-gateway/src/middleware/Middleware.cpp:145-169 | behind a chain of proxies the client is the first hop |
| Middlewares.IsRateLimited | api-gateway/src/middleware/Middleware.cpp:171-189 | once 60 s have passed since the window began, a new window starts now with a count of 1; otherwise the count goes up by exactly one; the request is limited exactly when the count exceeds the maximum; other clients are untouched |
| Middlewares.ReplayWithinWindow | api-gateway/src/middleware/Middleware.cpp:171-189 | inside one window the k-th further request is limited exactly when the count it raises passes the maximum |
| Middlewares.FirstMaxPass | api-gateway/src/middleware/Middleware.cpp:171-189 | within a fresh window exactly the first max requests pass |
| Middlewares.WithCorsHeaders | api-gateway/src/middleware/Middleware.cpp:195-201 | the four CORS headers are added with their fixed values; status and body are kept |
| Middlewares.Stop | api-gateway/src/middleware/Middleware.cpp:125-139 | a stopping stage answers with its own status, a rate limit with Retry-After 60 |
| Middlewares.Run | api-gateway/src/middleware/Middleware.cpp:223-249 | the final handler runs exactly when every stage hands the request on; with no stage it answers directly |
| Middlewares.RunUpdatesReachedStages | api-gateway/src/middleware/Middleware.cpp:223-249 | stages run in insertion order: those up to the first refusal see the request, and later ones are untouched |
| Middlewares.RunStopsAtFirstRefusal | api-gateway/src/middleware/Middleware.cpp:223-249 | a request the handler never sees is answered by the first refusing stage with that stage's status |
| Middlewares.AuthenticationFailureStops | api-gateway/src/middleware/Middleware.cpp:84-95 | a refused login is answered 401 and no later stage runs |
| Middlewares.PreflightStops | api-gateway/src/middleware/Middleware.cpp:204-208 | an OPTIONS request is answered 204 with the CORS headers and no later stage runs |
| Middlewares.PassingChainReachesHandler | api-gateway/src/middleware/Middleware.cpp:223-249 | when every stage passes and none is the CORS stage, which would add its headers, the final handler answers the request as it came |
| ServiceRegistries.NewRegistry | api-gateway/src/registry/ServiceRegistry.cpp:8-11 | an empty registry with the given failure limit |
| ServiceRegistries.RegisterService | api-gateway/src/registry/ServiceRegistry.cpp:13-29 | a fresh healthy entry with no failures, replacing an entry of the same name; other entries are kept |
| ServiceRegistries.MarkHealthy | api-gateway/src/registry/ServiceRegistry.cpp:59-70 | the service becomes healthy with no failures; an unknown name changes nothing |
| ServiceRegistries.MarkUnhealthy | api-gateway/src/registry/ServiceRegistry.cpp:72-89 | one more failure; the service stays healthy exactly while it was healthy and below the limit, so this never makes it healthy |
| ServiceRegistries.CheckServiceHealth | api-gateway/src/registry/ServiceRegistry.cpp:97-140 | healthy exactly for a known service whose probe succeeds |
| ServiceRegistries.CheckMatchesMarks | api-gateway/src/registry/ServiceRegistry.cpp:97-140 | the probe's bookkeeping is markServiceHealthy on success and markServiceUnhealthy on failure |
| ServiceRegistries.IsServiceHealthy | api-gateway/src/registry/ServiceRegistry.cpp:31-51 | unknown names are unhealthy; a flag checked less than 30 s ago is answered from the cache and nothing changes; an older one is re-probed as checkServiceHealth does, and the answer is the probe's |
| ServiceRegistries.StaleProbeOverridesFlag | api-gateway/src/registry/ServiceRegistry.cpp:31-51 | once the cache is stale the probe decides: a failing probe reports unhealthy while the stored flag still says healthy |
| ServiceRegistries.GetService | api-gateway/src/registry/ServiceRegistry.cpp:53-57 | a known entry as stored; an unknown name gets a blank entry inserted, and that blank is returned |
| ServiceRegistries.LookupRegistersBlank | api-gateway/src/registry/ServiceRegistry.cpp:53-57 | looking up an unknown name grows the registry; the inserted entry, last checked at the epoch, reads unhealthy within 30 s of the epoch and as the probe says after that |
| ServiceRegistries.ConsecutiveFailures | api-gateway/src/registry/ServiceRegistry.cpp:72-89 | after registration n failed checks leave n failures, and the service stays healthy exactly while n is zero or below the limit |
| ServiceRegistries.RecoveryResets | api-gateway/src/registry/ServiceRegistry.cpp:59-70 | one successful check undoes any run of failures |
| WebClient.ShadeOf | web/js/api.js:171-177 | the lower-cased label is searched for "low", then "medium", then "high"; the first hit decides |
| WebClient.RiskClass | web/js/api.js:171-177 | one of risk-low, risk-medium, risk-high or "" |
| WebClient.RiskBadge | web/js/api.js:179-185 | one of success, warning, danger or secondary |
| WebClient.ClassAndBadgeAgree | web/js/api.js:171-185 | class and badge follow the same category, so the class is "" exactly when the badge is secondary |
| WebClient.LowToMediumShowsLow | recovery-strategy-service/src/main.cpp:40 | the catalogue label "LOW_TO_MEDIUM" mentions both levels and is shown as low |
| WebClient.LevelNamesShowTheirLevel | web/js/api.js:171-185 | the three level names the risk service writes show in their own colours |
| WebClient.UpdatedBorrower | web/js/api.js:75-83 | the body sent back is the fetched record with only risk_segment replaced or added |
| WebClient.SegmentUpdatesOverwrite | web/js/api.js:75-83 | changing the segment twice is the same as changing it once to the second value |

## Left out

- SQL and database paths of every repository, and row mapping: database I/O. Only the in-memory (mock) mode of the communication and risk repositories is modelled.
- The connection pool, the logger, and the console output of the channels: concurrency and I/O.
- The random forest and k-means models, feature extraction and normalisation, and synthetic training data: floating-point numerics driven by random generators. The model's prediction and the clusterer are parameters.
- HTTP entry points, the web proxy, and the browser client's requests, formatting and DOM code: network and UI.
- Money formatting and stream operators, timestamp formatting, and the legal case-number generator: locale, clock and randomness. The case number comes in through `Strategies.Oracle`.
- `Config` file and environment loading, `getDouble`, and the convenience getters: file and environment I/O, and floating-point text parsing.
- The HTTP probe inside `checkServiceHealth`: it is a boolean argument.
- The mutexes of the gateway: each call is atomic.
- `toJson` of payments and strategies: display-only strings.
- `PaymentCheckerImpl`: a wrapper over a repository interface that is not part of this model.
- Middlewares.Header: looks up the exact header name. The HTTP library compares names case-insensitively.
- Middlewares.IsRateLimited: the per-client request count is unbounded. The source's `int` would overflow after 2^31 requests in one window.
- ServiceRegistries.MarkUnhealthy: the failure counter is unbounded. The source's `int` would overflow.
- CommunicationManagers.RegisterChannel: a non-null channel is assumed to answer `getName()`. A dangling pointer is not modelled.
- WebClient.Spread: non-object `data` spreads nothing. JavaScript would spread a string's characters.
- The default code `Unknown` of the database and communication exception constructors: the model always passes the code explicitly.
- Amounts.NewMoney: amounts are exact reals. Double rounding, NaN and infinity are not modelled.
- Borrowers.SetMonthlyIncome: the NaN and infinity check has no counterpart, because reals have neither.
- RiskScoring.AssessRisk: the model path is `predict` applied to the raw features. Feature extraction and normalisation are inside that parameter.
- StrategyManagers.AnalyzeAccount: states bounds on the level and the recommendation. The cluster id itself is the clusterer parameter's answer.
- Configs.StoI: its contract states only the range. The value is stated by `Configs.StoIReads` and `Configs.StoINoDigits`.
- Configs.GetBool: its contract covers only the missing key. The vocabulary is stated by `Configs.GetBoolVocabulary`.
- Configs.ParseLine: its contract states only what is never stored or dropped. The stored pair is stated by the round-trip lemmas.
- CommunicationLogs.FromJson: reads an already-parsed document. JSON text parsing is not modelled.
- CommunicationLogs.JsonToInt: a number outside the 32-bit range is taken as it is. get<int>() would narrow it with a cast.
- LoanAccounts.MarkPaymentMissed: the missed-payment count and the days past due are unbounded. The source's `int` fields would overflow after about 2^31 misses, or about 7 * 10^7 misses for the days.
- Responses.NotFound, Responses.BadRequest, Responses.VoidNotFound, Responses.VoidBadRequest and the other response helpers: the status codes 200, 400, 404 and 500 are the standard HTTP values. The header that defines the status-code constants is not part of this model.
- Strategies.Oracle: the message texts the strategies format, and the delivery flag sendMessage returns, are not modelled. The strategies ignore that flag; a notice records only the settlement amount or the law firm.

## Findings

| source | as written | input that shows it | evidently intended | confidence | as-written member | corrected member |
|---|---|---|---|---|---|---|
| communication-service/src/managers/CommunicationManager.cpp:31-35 | a missing channel throws ValidationException "Communication channel not found" | no channel registered, account id 1003, message "No channel case" | sendMessage returns false, as the "No channel registered" test at communication-service/tests/test_communication.cpp:43-52 expects | not executed | CommunicationManagers.SendMessage (exhibited by CommunicationManagers.MissingChannelThrows) | CommunicationManagers.SendMessageOrFalse |

The strategies reach the communication manager through its interface, so they see the throw as written. `Strategies.ManagerSends` is therefore built on `CommunicationManagers.SendMessage`, and `Strategies.NoChannelReminderThrows` shows what a strategy sees when the channel is missing.
