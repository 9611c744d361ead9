/**
 * The events the services exchange and the broker they go through.
 *
 * The broker is modelled as one append-only log of published messages: a publish
 * is an append, and a consumer is handed a message's payload.  Delivery order,
 * partitions, retries and redelivery are not modelled.
 */
module Events {
  import opened Outcomes
  import opened Money

  datatype Topic =
    | TransactionInitiated
    | TransactionSuccess
    | TransactionFailed
    | WalletUpdated
    | FraudAlert

  /** Payload of transaction.initiated, transaction.success and transaction.failed. */
  datatype TransactionEvent = TransactionEvent(
    transactionId: int,
    fromAccount: string,
    toAccount: string,
    amount: int,
    status: string,
    description: Option<string>,
    timestamp: int)

  /** Payload of wallet.updated; `timestamp` is the time the event object was built. */
  datatype WalletUpdateEvent = WalletUpdateEvent(
    accountNumber: string,
    previousBalance: int,
    newBalance: int,
    amount: int,
    operation: string,
    transactionId: int,
    timestamp: int)

  /** Payload of fraud.alert. */
  datatype FraudAlertEvent = FraudAlertEvent(
    transactionId: int,
    fromAccount: string,
    toAccount: string,
    amount: int,
    riskScore: int,
    reason: string)

  datatype Payload =
    | TransferPayload(transfer: TransactionEvent)
    | WalletPayload(update: WalletUpdateEvent)
    | AlertPayload(alert: FraudAlertEvent)

  /** A record on the broker: its topic, its partition key and its value. */
  datatype Message = Message(topic: Topic, key: string, payload: Payload)

  predicate IsTransactionTopic(t: Topic)
  {
    t == TransactionInitiated || t == TransactionSuccess || t == TransactionFailed
  }

  /** What TransactionEventProducer sends: keyed by the transaction id's decimal text. */
  function TransactionMessage(topic: Topic, e: TransactionEvent): Message
    requires IsTransactionTopic(topic)
  {
    Message(topic, IntToString(e.transactionId), TransferPayload(e))
  }

  /** What WalletEventProducer sends: keyed by the account number, not by the transaction id. */
  function WalletMessage(e: WalletUpdateEvent): Message
  {
    Message(WalletUpdated, e.accountNumber, WalletPayload(e))
  }

  /** What FraudAlertProducer sends: keyed by the transaction id's decimal text. */
  function AlertMessage(e: FraudAlertEvent): Message
  {
    Message(FraudAlert, IntToString(e.transactionId), AlertPayload(e))
  }

  /**
   * Messages about different transactions never share a partition key, and all
   * messages about one transaction on one topic share it.
   */
  lemma TransactionKeysSeparateTransactions(t1: Topic, e1: TransactionEvent, t2: Topic, e2: TransactionEvent)
    requires IsTransactionTopic(t1) && IsTransactionTopic(t2)
    ensures TransactionMessage(t1, e1).key == TransactionMessage(t2, e2).key <==> e1.transactionId == e2.transactionId
  {
    IntToStringInjective(e1.transactionId, e2.transactionId);
  }

  /** The broker, as the log of everything published so far. */
  class EventBus {
    var published: seq<Message>

    constructor ()
      ensures published == []
    {
      published := [];
    }

    method Publish(m: Message)
      modifies this
      ensures published == old(published) + [m]
    {
      published := published + [m];
    }
  }
}
