/**
 * The handlers that react to transaction.initiated, and the settlement flow they
 * form with the register and the notification dispatcher.
 *
 * Every producer publishes to the same broker, so one EventBus stands for it.
 * An exception thrown inside a handler is caught and logged there: it never
 * escapes, and whatever was published before it stays published.
 */
module Consumers {
  import opened Outcomes
  import opened Events
  import opened Ledger
  import opened Fraud
  import opened Register
  import opened Request
  import Notify

  /** The alert the fraud consumer builds from a flagged log: the log's fields, copied. */
  function AlertFor(log: FraudLog): (e: FraudAlertEvent)
    ensures e.transactionId == log.transactionId && e.riskScore == log.riskScore && e.reason == log.reason
    ensures e.fromAccount == log.fromAccount && e.toAccount == log.toAccount && e.amount == log.amount
  {
    FraudAlertEvent(log.transactionId, log.fromAccount, log.toAccount, log.amount, log.riskScore, log.reason)
  }

  /** The wallet-service TransactionEventConsumer. */
  class WalletConsumer {
    const walletService: WalletService
    /** Where WalletEventProducer publishes. */
    const producer: EventBus

    constructor (walletService: WalletService, producer: EventBus)
      ensures this.walletService == walletService && this.producer == producer
    {
      this.walletService := walletService;
      this.producer := producer;
    }

    /**
     * consumeTransactionInitiated: settles the transfer the event describes and
     * publishes the resulting wallet.updated; when the funds are short nothing
     * is published and the failure stays inside the handler.  The transaction's
     * status is not touched.
     */
    method ConsumeTransactionInitiated(event: TransactionEvent, now: int)
      modifies walletService, producer
      ensures var t := Transfer(old(walletService.balances), event.transactionId, event.fromAccount, event.toAccount, event.amount, now);
        && walletService.balances == (if t.Ok? then t.value.balances else old(walletService.balances))
        && producer.published == old(producer.published) + (if t.Ok? then [WalletMessage(t.value.event)] else [])
    {
      var walletUpdate := walletService.ProcessTransaction(event.transactionId, event.fromAccount, event.toAccount, event.amount, now);
      if walletUpdate.Ok? {
        producer.Publish(WalletMessage(walletUpdate.value));
      }
      // Err(InsufficientBalance): IllegalStateException, logged and swallowed.
    }
  }

  /** The fraud-service TransactionEventConsumer. */
  class FraudConsumer {
    const fraudService: FraudDetectionService
    /** Where FraudAlertProducer publishes. */
    const producer: EventBus

    constructor (fraudService: FraudDetectionService, producer: EventBus)
      ensures this.fraudService == fraudService && this.producer == producer
    {
      this.fraudService := fraudService;
      this.producer := producer;
    }

    /**
     * consumeTransactionInitiated: analyses the transfer the event describes,
     * which logs it, and publishes a fraud.alert exactly when the log is flagged.
     */
    method ConsumeTransactionInitiated(event: TransactionEvent, now: int) returns (log: FraudLog)
      modifies fraudService, producer
      ensures log == Assess(old(fraudService.logs), fraudService.config, event.transactionId, event.fromAccount, event.toAccount, event.amount, now)
      ensures fraudService.logs == old(fraudService.logs) + [log]
      ensures producer.published == old(producer.published) + (if log.flagged then [AlertMessage(AlertFor(log))] else [])
    {
      log := fraudService.AnalyzeTransaction(event.transactionId, event.fromAccount, event.toAccount, event.amount, now);
      if log.flagged {
        var alertEvent := FraudAlertEvent(log.transactionId, log.fromAccount, log.toAccount, log.amount, log.riskScore, log.reason);
        producer.Publish(AlertMessage(alertEvent));
      }
    }
  }

  /**
   * One transfer through the pipeline, with every event delivered once: the
   * register stores and announces it, the ledger consumer and then the fraud
   * consumer handle the announcement, and a fraud alert reaches the
   * notification dispatcher.  Nothing reports the ledger's outcome back to the
   * register, so the stored transaction is still PENDING at the end, and no
   * success notification is sent.
   */
  method Settle(register: TransactionService, walletConsumer: WalletConsumer, fraudConsumer: FraudConsumer,
                notifier: Notify.NotificationService, request: TransactionRequest, now: int)
    returns (r: Result<Transaction, RegisterError>)
    requires register.Valid()
    requires walletConsumer.producer == register.producer && fraudConsumer.producer == register.producer
    modifies register, register.producer, walletConsumer.walletService, fraudConsumer.fraudService, notifier
    ensures register.Valid()
    ensures EqualsIgnoreCase(request.fromAccount, request.toAccount) ==>
      && r == Err(SameAccount)
      && register.records == old(register.records)
      && register.producer.published == old(register.producer.published)
      && walletConsumer.walletService.balances == old(walletConsumer.walletService.balances)
      && fraudConsumer.fraudService.logs == old(fraudConsumer.fraudService.logs)
      && notifier.notifications == old(notifier.notifications)
    ensures !EqualsIgnoreCase(request.fromAccount, request.toAccount) ==>
      var id := |old(register.records)| + 1;
      var t := Transfer(old(walletConsumer.walletService.balances), id, request.fromAccount, request.toAccount, request.amount, now);
      var log := Assess(old(fraudConsumer.fraudService.logs), fraudConsumer.fraudService.config, id,
                        request.fromAccount, request.toAccount, request.amount, now);
      && r.Ok? && r.value.id == id && r.value.status == Pending
      && register.records == old(register.records) + [r.value]
      && walletConsumer.walletService.balances == (if t.Ok? then t.value.balances else old(walletConsumer.walletService.balances))
      && fraudConsumer.fraudService.logs == old(fraudConsumer.fraudService.logs) + [log]
      && register.producer.published == old(register.producer.published)
           + [TransactionMessage(TransactionInitiated, ToEvent(r.value))]
           + (if t.Ok? then [WalletMessage(t.value.event)] else [])
           + (if log.flagged then [AlertMessage(AlertFor(log))] else [])
      && notifier.notifications == old(notifier.notifications)
           + (if log.flagged then [Notify.FraudAlertNotification(id, request.fromAccount, request.toAccount, request.amount,
                                                                 log.riskScore, log.reason, now)] else [])
  {
    r := register.InitiateTransaction(request, now);
    if r.Err? {
      return;
    }
    var event := ToEvent(r.value);
    walletConsumer.ConsumeTransactionInitiated(event, now);
    var log := fraudConsumer.ConsumeTransactionInitiated(event, now);
    if log.flagged {
      // The notification consumer hands the alert's fields to sendFraudAlert.
      var alert := AlertFor(log);
      notifier.SendFraudAlert(alert.transactionId, alert.fromAccount, alert.toAccount, alert.amount,
                              alert.riskScore, alert.reason, now);
    }
  }
}
