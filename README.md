# Settlement pipeline of the banking back end, in Dafny

This project models how the four Java back-end services settle a transfer:

- The **transaction register** (`TransactionService`) stores a transfer as PENDING and announces it on `transaction.initiated`.
- The **wallet ledger** (`WalletService`, through its `TransactionEventConsumer`) debits the source wallet and credits the destination wallet, then announces `wallet.updated`.
- The **fraud scorer** (`FraudDetectionService`, through its `TransactionEventConsumer`) scores the transfer, logs the analysis and announces `fraud.alert` when the transfer is flagged.
- The **notification dispatcher** (`NotificationService`) stores the notifications it sends.
- The bean-validation constraints of the transfer request (`TransactionRequest`) decide what reaches the register at all.

Modelling choices:

- Amounts are integer paise. The source holds them as BigDecimal rupees, and a validated amount has at most two fraction digits, so paise record its value. They do not record its scale: a request's amount keeps the scale it was sent with all the way to the fraud service, so 20000 and 20000.00 are different BigDecimals there but the same paise here.
- The BigDecimal's own scale is modelled, through `Money.Decimal`, in two places only: the `@Digits` check of the validator and the round-amount rule as the source writes it (`Fraud.RoundAmountAsWritten`). The fraud service of the model applies the round-amount rule to the value instead; see "## Left out" and "## Findings".
- Account numbers are `string`s of code points; `@Size` counts UTF-16 code units, as `String.length()` does, through `Request.Utf16Length`.
- Times are integer seconds that the caller supplies.
- Every Kafka producer publishes to one broker. The broker is an `Events.EventBus`: an append-only log of (topic, key, payload) messages.
- Each service is a class over the state its repository holds:
  - the wallets table is a `map` from account number to balance;
  - the transactions table is a `seq` in which id *i* sits at index *i* − 1;
  - the fraud logs and the notifications are `seq`s in insertion order.
- A derived repository query without `OrderBy` promises no order; the model lists its results in table or insertion order (see "## Left out").
- Each state-changing method is proved against a pure function of the old state (`Ledger.Transfer`, `Fraud.Assess`, `Notify.SuccessNotifications`, …). The properties the source promises are proved about those functions as lemmas.

What the code does, rather than what a payment system ought to do, is modelled:

- The ledger keeps no record of the transaction ids it has applied.
- `updateTransactionStatus` overwrites any status, a SUCCESS or FAILED one included.
- Nothing reports the ledger's outcome back to the register, so a transfer stays PENDING.
- A transfer from an account to itself debits and credits one wallet. `processTransaction` reads the new balance after the credit, so the event reports it unchanged.

## Model

| member | source | states |
|---|---|---|
| Money.FormatAmount | notification-service/src/main/java/com/banking/notification/service/NotificationService.java:30-31 | `%.2f` of an amount: at least four characters, a '.' followed by exactly two digits at the end, a leading '-' exactly for a negative amount, and no space |
| Money.FormatAmountRoundTrip | notification-service/src/main/java/com/banking/notification/service/NotificationService.java:30-31 | the paise can be read back from the rendered text, so the rendering loses nothing |
| Money.FormatAmountInjective | notification-service/src/main/java/com/banking/notification/service/NotificationService.java:43-44 | two different amounts are never rendered alike |
| Money.IntToStringRoundTrip | transaction-service/src/main/java/com/banking/transaction/producer/TransactionEventProducer.java:44-45 | `String.valueOf` of a transaction id reads back to the id |
| Money.IntToStringInjective | transaction-service/src/main/java/com/banking/transaction/producer/TransactionEventProducer.java:44-45 | different ids give different keys |
| Request.Validate | transaction-service/src/main/java/com/banking/transaction/dto/TransactionRequest.java:14-28 | a request is accepted exactly when both accounts are non-blank with a `String.length()` of 3 to 50 UTF-16 code units and the amount is present, at least 0.01, at most 1,000,000.00, with at most 15 integer and 2 fraction digits; a refusal reports the non-empty set of every violated constraint; an accepted request keeps the accounts and the description as sent |
| Request.AcceptedRequestFacts | transaction-service/src/main/java/com/banking/transaction/dto/TransactionRequest.java:14-26 | what the register can rely on after validation: accounts of 3 to 50 UTF-16 code units, hence 2 to 50 characters, each with a visible character, and an amount of 1 to 100,000,000 paise equal in value to the amount sent |
| Request.Utf16Length | transaction-service/src/main/java/com/banking/transaction/dto/TransactionRequest.java:15 | `String.length()`, which `@Size` counts, lies between the number of characters and twice that number |
| Request.Utf16LengthOfBmp | transaction-service/src/main/java/com/banking/transaction/dto/TransactionRequest.java:15 | for text without characters beyond the Basic Multilingual Plane, `@Size` counts characters |
| Request.SizeCountsCodeUnits | transaction-service/src/main/java/com/banking/transaction/dto/TransactionRequest.java:15 | an emoji followed by one letter has length 3 and passes `@Size(min = 3)` |
| Request.MessagesDistinct | transaction-service/src/main/java/com/banking/transaction/dto/TransactionRequest.java:14-25 | each constraint reports its violation with a message no other constraint uses |
| Request.DigitsOnlyLimitsScale | transaction-service/src/main/java/com/banking/transaction/dto/TransactionRequest.java:23-25 | within the min/max range an amount has at most 7 integer digits, so @Digits only rejects a scale above 2 (1.000 is refused although it equals 1.00) |
| Events.TransactionKeysSeparateTransactions | transaction-service/src/main/java/com/banking/transaction/producer/TransactionEventProducer.java:43-45 | two transaction events share a partition key exactly when they are about the same transaction id |
| Events.EventBus.Publish | transaction-service/src/main/java/com/banking/transaction/producer/TransactionEventProducer.java:43-45 | a send appends exactly its message to the broker's log |
| Ledger.Opened | wallet-service/src/main/java/com/banking/wallet/service/WalletService.java:80-86 | getOrCreateWallet leaves the account with a wallet, opens a missing one at 10000.00, and keeps every existing wallet and balance |
| Ledger.Transfer | wallet-service/src/main/java/com/banking/wallet/service/WalletService.java:35-73 | a refusal is always InsufficientBalance; a settled transfer leaves both accounts with wallets and adds no other, and its event names the source account, the amount, "TRANSFER" and the transaction id |
| Ledger.TransferRefusedIffShort | wallet-service/src/main/java/com/banking/wallet/service/WalletService.java:41-49 | a transfer is refused with InsufficientBalance exactly when the source wallet holds less than the amount; the source is opened at 10000.00 first if missing; the comparison is strict, so an equal balance is accepted |
| Ledger.TransferMovesAmount | wallet-service/src/main/java/com/banking/wallet/service/WalletService.java:51-70 | between two accounts the source loses exactly the amount, the destination gains it and their sum is conserved; the event names the source with its old and new balance, the amount, "TRANSFER" and the transaction id |
| Ledger.TransferToSelf | wallet-service/src/main/java/com/banking/wallet/service/WalletService.java:41-67 | a transfer from an account to itself changes no balance beyond opening the wallet, and its event reports the new balance equal to the previous one |
| Ledger.TransferFrame | wallet-service/src/main/java/com/banking/wallet/service/WalletService.java:35-73 | a transfer adds at most the two named wallets and leaves every other balance untouched |
| Ledger.TransferConservesTotal | wallet-service/src/main/java/com/banking/wallet/service/WalletService.java:41-61 | the sum of all balances is unchanged, except for 10000.00 added per wallet the transfer had to open |
| Ledger.TransferKeepsNonNegative | wallet-service/src/main/java/com/banking/wallet/service/WalletService.java:45-59 | with no negative balance and a non-negative amount, no transfer makes a balance negative |
| Ledger.RedeliveryAppliesTwice | wallet-service/src/main/java/com/banking/wallet/service/WalletService.java:35-73 | the transaction id is not recorded: the same transfer handed over twice moves the amount twice |
| Ledger.CreateThenLookup | wallet-service/src/main/java/com/banking/wallet/service/WalletService.java:20-31 | createWallet is refused exactly for an account that has a wallet; otherwise the wallet is found with the given balance, or zero when none was given, and other wallets read as before |
| Ledger.CreateKeepsNonNegative | wallet-service/src/main/java/com/banking/wallet/service/WalletService.java:27-29 | createWallet accepts any initial balance, so it keeps balances non-negative exactly when that balance is non-negative |
| Ledger.WalletService.CreateWallet | wallet-service/src/main/java/com/banking/wallet/service/WalletService.java:19-32 | an existing account is refused with WalletExists and the table is unchanged; otherwise the table gains exactly that wallet with the initial balance, or zero |
| Ledger.WalletService.GetWalletByAccountNumber | wallet-service/src/main/java/com/banking/wallet/service/WalletService.java:75-78 | returns the stored wallet exactly when the account has one, else WalletNotFound |
| Ledger.WalletService.ProcessTransaction | wallet-service/src/main/java/com/banking/wallet/service/WalletService.java:34-73 | on success the table becomes `Transfer`'s table and the result is its event; on a shortfall the result is InsufficientBalance and the table, lazily opened wallets included, is as before (rollback) |
| Register.EqualsIgnoreCaseIffSameLowerCase | transaction-service/src/main/java/com/banking/transaction/service/TransactionService.java:31 | two account numbers count as the same account exactly when they are equal after lower-casing |
| Register.EqualsIgnoreCaseExamples | transaction-service/src/main/java/com/banking/transaction/service/TransactionService.java:31-33 | "ACC-1001" and "acc-1001" are the same account; "ACC-1001" and "ACC-1002" are not |
| Register.ToEvent | transaction-service/src/main/java/com/banking/transaction/service/TransactionService.java:109-119 | the event copies the id, both accounts, the amount and the description, carries the status's name and, as its timestamp, createdAt |
| Register.ToEventInjective | transaction-service/src/main/java/com/banking/transaction/service/TransactionService.java:109-119 | every field of the record reaches the event, so two different records never give the same event |
| Register.FindById | transaction-service/src/main/java/com/banking/transaction/service/TransactionService.java:75-79 | returns a stored transaction with the id, or TransactionNotFound exactly when no stored transaction has it |
| Register.Involving | transaction-service/src/main/java/com/banking/transaction/service/TransactionService.java:81-83 | holds each stored transaction whose source or destination is the account, as many times as it is stored, and nothing else |
| Register.SortByCreatedAtDesc | transaction-service/src/main/java/com/banking/transaction/service/TransactionService.java:82-83 | the result is ordered newest first and is a permutation of its input |
| Register.History | transaction-service/src/main/java/com/banking/transaction/service/TransactionService.java:81-87 | the history is newest first and holds each transaction the account sent or received, as often as it is stored, and nothing else |
| Register.PendingTransactions | transaction-service/src/main/java/com/banking/transaction/service/TransactionService.java:89-94 | holds each stored transaction whose status is PENDING, as many times as it is stored, and nothing else |
| Register.QueriesAfterInitiate | transaction-service/src/main/java/com/banking/transaction/service/TransactionService.java:37-51 | a stored row joins the list of each account it involves, and the pending list when it is PENDING, the earlier rows staying listed as before; other lists do not change; the model lists it after the earlier ones |
| Register.TransactionService.InitiateTransaction | transaction-service/src/main/java/com/banking/transaction/service/TransactionService.java:25-52 | a same-account transfer (ignoring case) is refused with nothing stored or published; otherwise exactly one PENDING record with the next id and the request's fields is stored, and exactly one transaction.initiated message carrying that record is published |
| Register.TransactionService.UpdateTransactionStatus | transaction-service/src/main/java/com/banking/transaction/service/TransactionService.java:54-73 | an unknown id changes nothing; otherwise only that record's status is overwritten, whatever it was, and a success or failed event is published for SUCCESS or FAILED, none for PENDING |
| Fraud.RiskScore | fraud-service/src/main/java/com/banking/fraud/service/FraudDetectionService.java:43-68 | the score is always one of 0, 10, 40, 50, 60, 90, 100 |
| Fraud.Classify | fraud-service/src/main/java/com/banking/fraud/service/FraudDetectionService.java:70-84 | the flag is set exactly for the levels HIGH and CRITICAL |
| Fraud.LevelName | fraud-service/src/main/java/com/banking/fraud/service/FraudDetectionService.java:71-87 | the level is stored as one of the texts LOW, MEDIUM, HIGH and CRITICAL |
| Fraud.FlaggedIffScoreAtLeast50 | fraud-service/src/main/java/com/banking/fraud/service/FraudDetectionService.java:70-84 | flagged exactly when the score is at least 50 |
| Fraud.ClassifyMonotone | fraud-service/src/main/java/com/banking/fraud/service/FraudDetectionService.java:70-84 | a higher score never gets a lower level |
| Fraud.FlaggedIffRules | fraud-service/src/main/java/com/banking/fraud/service/FraudDetectionService.java:43-84 | a transfer is flagged exactly when it is a high amount, or both rapid and round |
| Fraud.LevelByRules | fraud-service/src/main/java/com/banking/fraud/service/FraudDetectionService.java:70-84 | CRITICAL exactly for high and rapid; HIGH for high alone or rapid and round; MEDIUM for rapid alone; LOW when neither high nor rapid |
| Fraud.HighAmountCrossing | fraud-service/src/main/java/com/banking/fraud/service/FraudDetectionService.java:43-47 | the comparison is strict: an amount at the threshold scores like one below it, and one above scores exactly 50 more |
| Fraud.ScoreMonotoneInRecentCount | fraud-service/src/main/java/com/banking/fraud/service/FraudDetectionService.java:50-60 | more recent analyses never lower the score |
| Fraud.Assess | fraud-service/src/main/java/com/banking/fraud/service/FraudDetectionService.java:30-91 | the log copies the transfer and the time of the analysis, scores it against the analyses saved before it, and is flagged exactly when the score is at least 50, that is exactly when the amount is high or the transfer both rapid and round; its level is the name of the score's class |
| Fraud.NormalReasonIffZeroScore | fraud-service/src/main/java/com/banking/fraud/service/FraudDetectionService.java:88 | the reason reads "Normal transaction" exactly when no rule fired, i.e. the score is 0 |
| Fraud.RecentCount | fraud-service/src/main/java/com/banking/fraud/service/FraudDetectionService.java:51-53 | the velocity count is the number of stored analyses from the same account whose timestamp is strictly after the window start |
| Fraud.RecentCountWithinAccountLogs | fraud-service/src/main/java/com/banking/fraud/service/FraudDetectionService.java:51-53 | the velocity count never exceeds the number of the account's logs, and equals it when the window reaches back past every stored analysis |
| Fraud.FlaggedLogs | fraud-service/src/main/java/com/banking/fraud/service/FraudDetectionService.java:104-106 | holds each stored flagged log as many times as it is stored, and nothing else |
| Fraud.LogsByAccount | fraud-service/src/main/java/com/banking/fraud/service/FraudDetectionService.java:108-110 | holds each stored log whose source is the account as many times as it is stored, and nothing else |
| Fraud.QueriesAfterSave | fraud-service/src/main/java/com/banking/fraud/service/FraudDetectionService.java:91-110 | a saved log joins the flagged logs exactly when it is flagged, and the logs of its own account only, the earlier logs staying listed as before; the model lists it after the earlier ones |
| Fraud.RoundAmountAsWrittenMissesScaledAmounts | fraud-service/src/main/java/com/banking/fraud/service/FraudDetectionService.java:63-64 | as written, the round-amount rule never fires for an amount that has fraction digits |
| Fraud.RoundAmountAsWrittenCounterexample | fraud-service/src/main/java/com/banking/fraud/service/FraudDetectionService.java:63-64 | 20000.00 is a multiple of 10000 rupees, yet the rule as written does not fire for it |
| Fraud.RoundAmountCorrected | fraud-service/src/main/java/com/banking/fraud/service/FraudDetectionService.java:62-68 | the rule on the value agrees with the rule as written on whole-rupee amounts, and trailing zeros do not change it |
| Fraud.FraudDetectionService.AnalyzeTransaction | fraud-service/src/main/java/com/banking/fraud/service/FraudDetectionService.java:30-102 | the log saved and returned is `Assess` of the log as it was before the call, so the analysis never counts toward its own velocity; exactly that one log is appended, flagged or not |
| Notify.SenderMessageDetermines | notification-service/src/main/java/com/banking/notification/service/NotificationService.java:30-31 | the payer's message determines the amount and the payee |
| Notify.ReceiverMessageDetermines | notification-service/src/main/java/com/banking/notification/service/NotificationService.java:43-44 | the payee's message determines the amount and the payer |
| Notify.AlertMessageDetermines | notification-service/src/main/java/com/banking/notification/service/NotificationService.java:64-66 | the alert's message determines the amount, the risk score and the reason |
| Notify.SuccessNotificationsFacts | notification-service/src/main/java/com/banking/notification/service/NotificationService.java:22-46 | a success makes two records, the payer's first and then the payee's; both are SUCCESS, marked sent, and carry the same transaction, accounts and amount |
| Notify.SuccessReachesBothParties | notification-service/src/main/java/com/banking/notification/service/NotificationService.java:22-46 | after a success the payer's inbox gains exactly the payer's record and the payee's inbox exactly the payee's; both records go to one inbox for a transfer to oneself |
| Notify.SuccessListedUnderTransaction | notification-service/src/main/java/com/banking/notification/service/NotificationService.java:22-46 | both records of a success are listed under its transaction, with the earlier ones kept; the model lists them after the earlier ones |
| Notify.AlertReachesPayerOnly | notification-service/src/main/java/com/banking/notification/service/NotificationService.java:57-68 | an alert reaches the payer's inbox and no other |
| Notify.ByRecipient | notification-service/src/main/java/com/banking/notification/service/NotificationService.java:74-76 | holds each stored notification addressed to the recipient, as many times as it is stored, and nothing else |
| Notify.ByTransaction | notification-service/src/main/java/com/banking/notification/service/NotificationService.java:78-80 | holds each stored notification about the transaction, as many times as it is stored, and nothing else |
| Seqs.FilterAppend | notification-service/src/main/java/com/banking/notification/service/NotificationService.java:74-80 | the model's query over records appended later lists the earlier matches first, in their order, then the new ones |
| Notify.NotificationService.SendTransactionSuccessNotification | notification-service/src/main/java/com/banking/notification/service/NotificationService.java:18-51 | appends exactly the payer's record and then the payee's record |
| Notify.NotificationService.SendFraudAlert | notification-service/src/main/java/com/banking/notification/service/NotificationService.java:53-72 | appends exactly one FRAUD_ALERT record, addressed to the payer and marked sent |
| Notify.NotificationService.GetNotificationsByRecipient | notification-service/src/main/java/com/banking/notification/service/NotificationService.java:74-76 | holds each stored notification addressed to the recipient, once per record, and nothing else |
| Notify.NotificationService.GetNotificationsByTransaction | notification-service/src/main/java/com/banking/notification/service/NotificationService.java:78-80 | holds each stored notification about the transaction, once per record, and nothing else |
| Consumers.AlertFor | fraud-service/src/main/java/com/banking/fraud/consumer/TransactionEventConsumer.java:36-42 | the alert copies the transaction id, accounts, amount, risk score and reason from the log |
| Consumers.WalletConsumer.ConsumeTransactionInitiated | wallet-service/src/main/java/com/banking/wallet/consumer/TransactionEventConsumer.java:20-46 | the event's fields go unchanged to processTransaction; exactly its wallet.updated event is published once when it succeeds; nothing is published and balances stay as they were on a shortfall |
| Consumers.FraudConsumer.ConsumeTransactionInitiated | fraud-service/src/main/java/com/banking/fraud/consumer/TransactionEventConsumer.java:21-54 | the event's fields go unchanged to analyzeTransaction; one log is added; an alert copied from the log is published exactly when the log is flagged, and nothing otherwise |
| Consumers.Settle | wallet-service/src/main/java/com/banking/wallet/consumer/TransactionEventConsumer.java:17-46 | one transfer through register, ledger and fraud scorer: the broker gets the initiated event, the wallet update only on success and the alert only when flagged; the payer is notified only of an alert; the stored transaction is still PENDING at the end |

## Left out

- REST controllers, the frontend, the API gateway, the auth and account services: HTTP mapping, UI and credentials, outside the settlement logic.
- The notification-service TransactionEventConsumer: it hands an event's fields unchanged to `sendTransactionSuccessNotification` or `sendFraudAlert`; `Consumers.Settle` makes that hand-off directly.
- Kafka delivery: the producers' asynchronous sends and callbacks, partitions, consumer groups, retries, redelivery and delivery order. `Consumers.Settle` delivers each event once, to the ledger consumer before the fraud consumer.
- Concurrency: the services run in parallel with no locks; the model is sequential and says nothing about interleavings.
- Infrastructure exceptions (database, broker, serialisation): the consumers' `catch (Exception e)` branches are not modelled beyond the insufficient-balance case.
- Wall-clock time: `LocalDateTime.now()` is an integer `now` supplied by the caller; `updatedAt` and the entities' `createdAt` default are not modelled apart from the transaction's `createdAt`.
- Generated document ids, the wallet entity's id and timestamps, and `mapToResponse`, which copies the modelled fields of a transaction unchanged.
- `getAllFraudLogs` and `getAllNotifications`: they return the stored sequence as it is.
- Email and SMS sending: the source only logs them.
- Database column limits: the transactions table's account columns (length 50), amount (precision 15, scale 2), status (length 20) and description (length 500), and the wallets table's columns.
- BigDecimal values of negative scale, and amounts of scale above 2 anywhere after validation.
- Case folding outside ASCII in `equalsIgnoreCase`.
- Fraud.HighAmountReason: renders the amount with two decimals; the source appends the BigDecimal itself, whose text keeps the scale it arrived with (150000 or 150000.00), which integer paise do not record.
- Fraud.RoundReason: renders the amount with two decimals, for the same reason as the high-amount reason.
- Order of unordered queries: `findByFromAccountOrToAccount`, `findByStatus`, `findByFlagged`, `findByFromAccount`, `findByRecipient` and `findByTransactionId` have no `OrderBy`, so the database may return their results in any order; the model fixes table or insertion order, so only the multiset parts of `Register.Involving`, `Register.PendingTransactions`, `Fraud.FlaggedLogs`, `Fraud.LogsByAccount`, `Notify.ByRecipient` and `Notify.ByTransaction`, and of the lemmas about them, are promised by the source.
- Fraud.FraudDetectionService.AnalyzeTransaction: applies the round-amount rule to the amount's value (`Fraud.IsRoundAmount`), whereas the source gives the 10 points only to amounts of scale 0 (`Fraud.RoundAmountAsWritten`); an amount sent as 20000.00 from an account at the rapid count, under a threshold above 20000, scores 50 and is flagged here but scores 40 (MEDIUM, no alert) in the source. `Fraud.Assess`, `Consumers.FraudConsumer.ConsumeTransactionInitiated` and `Consumers.Settle` inherit this.
- Money.FormatAmount: uses '.' as the decimal separator; `String.format` follows the default locale, which may use another.

## Findings

| source | as written | input that shows it | evidently intended | confidence | as-written member | corrected member |
|---|---|---|---|---|---|---|
| fraud-service/src/main/java/com/banking/fraud/service/FraudDetectionService.java:63-64 | `amount.remainder(10000).equals(BigDecimal.ZERO)` also compares the scale, so the remainder of an amount with fraction digits never equals ZERO | an amount of 20000.00 (scale 2): the remainder is 0.00, which is not `equals` to 0, so no round-amount points are given | every amount that is a whole multiple of 10000 rupees, at least 10000, gets the 10 points, whatever its scale | medium; not executed | Fraud.RoundAmountAsWrittenCounterexample | Fraud.RoundAmountCorrected |
