/**
 * The transaction register (transaction-service): the table of transfers and
 * the events it publishes about them.
 *
 * The table is append-only and its ids come from an auto-increment column, so it
 * is held as a sequence in which the transaction with id i sits at index i - 1.
 * Publishing goes to the shared broker log.
 */
module Register {
  import opened Outcomes
  import opened Request
  import opened Events
  import opened Seqs

  datatype Status = Pending | Success | Failed

  /** TransactionStatus.name(). */
  function StatusName(s: Status): string
  {
    match s
    case Pending => "PENDING"
    case Success => "SUCCESS"
    case Failed => "FAILED"
  }

  /** A row of the transactions table (updatedAt left out). */
  datatype Transaction = Transaction(
    id: int,
    fromAccount: string,
    toAccount: string,
    amount: int,
    status: Status,
    description: Option<string>,
    createdAt: int)

  datatype RegisterError =
    | SameAccount                  // IllegalArgumentException("Cannot transfer to the same account")
    | TransactionNotFound(id: int) // IllegalArgumentException("Transaction not found: ...")

  // ---------------------------------------------------------------------------
  // String.equalsIgnoreCase, for ASCII letters

  function FoldCase(c: char): char
  {
    if 'A' <= c <= 'Z' then (c as int + ('a' as int - 'A' as int)) as char else c
  }

  predicate EqualsIgnoreCase(a: string, b: string)
  {
    |a| == |b| && forall i :: 0 <= i < |a| ==> FoldCase(a[i]) == FoldCase(b[i])
  }

  /** The string with every ASCII capital replaced by its small letter. */
  function LowerCase(s: string): (r: string)
    ensures |r| == |s|
    ensures forall i :: 0 <= i < |s| ==> r[i] == FoldCase(s[i])
    decreases |s|
  {
    if s == [] then [] else [FoldCase(s[0])] + LowerCase(s[1..])
  }

  /** Two account numbers count as the same exactly when they are equal after lower-casing. */
  lemma EqualsIgnoreCaseIffSameLowerCase(a: string, b: string)
    ensures EqualsIgnoreCase(a, b) <==> LowerCase(a) == LowerCase(b)
  {
    if LowerCase(a) == LowerCase(b) {
      assert |a| == |b|;
      forall i | 0 <= i < |a| ensures FoldCase(a[i]) == FoldCase(b[i]) {
        assert LowerCase(a)[i] == LowerCase(b)[i];
      }
    }
  }

  /** Equal account numbers, and those differing only in case, are refused alike. */
  lemma EqualsIgnoreCaseExamples()
    ensures EqualsIgnoreCase("ACC-1001", "acc-1001")
    ensures !EqualsIgnoreCase("ACC-1001", "ACC-1002")
  {
    assert "ACC-1001"[7] == '1' && "ACC-1002"[7] == '2';
  }

  // ---------------------------------------------------------------------------
  // Field mappings and queries

  /** mapToEvent: the event carries the record's fields, its status name and, as its timestamp, createdAt. */
  function ToEvent(t: Transaction): (e: TransactionEvent)
    ensures e.transactionId == t.id && e.fromAccount == t.fromAccount && e.toAccount == t.toAccount
    ensures e.amount == t.amount && e.description == t.description && e.timestamp == t.createdAt
    ensures e.status == StatusName(t.status)
  {
    TransactionEvent(t.id, t.fromAccount, t.toAccount, t.amount, StatusName(t.status), t.description, t.createdAt)
  }

  /** Every field of a transaction reaches its event, so the event identifies the record, status included. */
  lemma ToEventInjective(t1: Transaction, t2: Transaction)
    requires ToEvent(t1) == ToEvent(t2)
    ensures t1 == t2
  {
    var n1, n2 := StatusName(t1.status), StatusName(t2.status);
    assert n1[0] == n2[0];
  }

  /** The event published for a status update: success or failed, and none for PENDING. */
  function StatusMessages(t: Transaction): seq<Message>
  {
    match t.status
    case Success => [TransactionMessage(TransactionSuccess, ToEvent(t))]
    case Failed => [TransactionMessage(TransactionFailed, ToEvent(t))]
    case Pending => []
  }

  /** Ids are 1, 2, 3, ... in insertion order. */
  ghost predicate WellFormed(records: seq<Transaction>)
  {
    forall i :: 0 <= i < |records| ==> records[i].id == i + 1
  }

  /** findById. */
  function FindById(records: seq<Transaction>, id: int): (r: Result<Transaction, RegisterError>)
    requires WellFormed(records)
    ensures r.Ok? ==> r.value in records && r.value.id == id
    ensures r.Err? ==> r.error == TransactionNotFound(id) && forall t :: t in records ==> t.id != id
  {
    if 1 <= id <= |records| then Ok(records[id - 1]) else Err(TransactionNotFound(id))
  }

  predicate Involves(t: Transaction, account: string)
  {
    t.fromAccount == account || t.toAccount == account
  }

  /** The condition findByFromAccountOrToAccount selects on. */
  function InvolvesAccount(account: string): Transaction -> bool
  {
    (t: Transaction) => Involves(t, account)
  }

  /** findByFromAccountOrToAccount: every transaction of the account, once per row; the model lists them in table order. */
  function Involving(records: seq<Transaction>, account: string): (r: seq<Transaction>)
    ensures forall t :: t in r <==> t in records && Involves(t, account)
    ensures forall t {:trigger multiset(r)[t]} :: multiset(r)[t] == if Involves(t, account) then multiset(records)[t] else 0
  {
    Filter(records, InvolvesAccount(account))
  }

  ghost predicate NewestFirst(s: seq<Transaction>)
  {
    forall i, j :: 0 <= i < j < |s| ==> s[i].createdAt >= s[j].createdAt
  }

  lemma ConsNewestFirst(x: Transaction, s: seq<Transaction>)
    requires NewestFirst(s)
    requires s != [] ==> x.createdAt >= s[0].createdAt
    ensures NewestFirst([x] + s)
  {
    var r := [x] + s;
    forall i, j | 0 <= i < j < |r| ensures r[i].createdAt >= r[j].createdAt {
      if i == 0 {
        assert r[j] == s[j - 1];
      } else {
        assert r[i] == s[i - 1] && r[j] == s[j - 1];
      }
    }
  }

  function InsertByCreatedAt(t: Transaction, s: seq<Transaction>): (r: seq<Transaction>)
    requires NewestFirst(s)
    ensures NewestFirst(r)
    ensures multiset(r) == multiset(s) + multiset{t}
    ensures r[0] == t || (s != [] && r[0] == s[0])
    decreases |s|
  {
    if s == [] || t.createdAt >= s[0].createdAt then
      ConsNewestFirst(t, s);
      [t] + s
    else
      assert s == [s[0]] + s[1..];
      var rest := InsertByCreatedAt(t, s[1..]);
      ConsNewestFirst(s[0], rest);
      [s[0]] + rest
  }

  function SortByCreatedAtDesc(s: seq<Transaction>): (r: seq<Transaction>)
    ensures NewestFirst(r)
    ensures multiset(r) == multiset(s)
    decreases |s|
  {
    if s == [] then []
    else
      assert s == [s[0]] + s[1..];
      InsertByCreatedAt(s[0], SortByCreatedAtDesc(s[1..]))
  }

  /**
   * getTransactionHistory: every transaction the account sent or received, each
   * as often as it is stored, newest first.
   */
  function History(records: seq<Transaction>, account: string): (r: seq<Transaction>)
    ensures NewestFirst(r)
    ensures multiset(r) == multiset(Involving(records, account))
    ensures forall t :: t in r <==> t in records && Involves(t, account)
  {
    var r := SortByCreatedAtDesc(Involving(records, account));
    assert forall t :: t in r <==> t in multiset(Involving(records, account));
    r
  }

  predicate IsPending(t: Transaction)
  {
    t.status == Pending
  }

  /** getPendingTransactions: every transaction whose status is PENDING, once per row; the model lists them in table order. */
  function PendingTransactions(records: seq<Transaction>): (r: seq<Transaction>)
    ensures forall t :: t in r <==> t in records && t.status == Pending
    ensures forall t {:trigger multiset(r)[t]} :: multiset(r)[t] == if t.status == Pending then multiset(records)[t] else 0
  {
    Filter(records, IsPending)
  }

  /**
   * In the model's table order, a row appended to the table is listed last
   * among the pending transactions when it is PENDING, as initiateTransaction's
   * row always is, and last among those of each of its two accounts; the
   * earlier lists are kept, and an account it does not involve sees no change.
   */
  lemma QueriesAfterInitiate(records: seq<Transaction>, t: Transaction, account: string)
    ensures PendingTransactions(records + [t]) == PendingTransactions(records) + (if t.status == Pending then [t] else [])
    ensures Involving(records + [t], account) == Involving(records, account) + (if Involves(t, account) then [t] else [])
  {
    FilterAppend(records, [t], IsPending);
    FilterSingleton(t, IsPending);
    FilterAppend(records, [t], InvolvesAccount(account));
    FilterSingleton(t, InvolvesAccount(account));
  }

  // ---------------------------------------------------------------------------
  // The service

  class TransactionService {
    /** The transactions table; the row with id i is records[i - 1]. */
    var records: seq<Transaction>
    /** Where TransactionEventProducer publishes. */
    const producer: EventBus

    ghost predicate Valid()
      reads this
    {
      WellFormed(records)
    }

    constructor (bus: EventBus)
      ensures Valid() && records == [] && producer == bus
    {
      records := [];
      producer := bus;
    }

    /**
     * initiateTransaction: a transfer between two account numbers that differ
     * ignoring case is stored as PENDING with the next id and announced on
     * transaction.initiated; a transfer to the same account is refused before
     * anything is stored or published.
     */
    method InitiateTransaction(request: TransactionRequest, now: int) returns (r: Result<Transaction, RegisterError>)
      requires Valid()
      modifies this, producer
      ensures Valid()
      ensures EqualsIgnoreCase(request.fromAccount, request.toAccount) ==>
        && r == Err(SameAccount)
        && records == old(records)
        && producer.published == old(producer.published)
      ensures !EqualsIgnoreCase(request.fromAccount, request.toAccount) ==>
        && r == Ok(Transaction(|old(records)| + 1, request.fromAccount, request.toAccount, request.amount,
                               Pending, request.description, now))
        && records == old(records) + [r.value]
        && producer.published == old(producer.published) + [TransactionMessage(TransactionInitiated, ToEvent(r.value))]
    {
      if EqualsIgnoreCase(request.fromAccount, request.toAccount) {
        return Err(SameAccount);
      }
      var saved := Transaction(|records| + 1, request.fromAccount, request.toAccount, request.amount,
                               Pending, request.description, now);
      records := records + [saved];
      producer.Publish(TransactionMessage(TransactionInitiated, ToEvent(saved)));
      r := Ok(saved);
    }

    /**
     * updateTransactionStatus: overwrites the status of a stored transaction,
     * whatever it was (a SUCCESS or FAILED one included), and publishes
     * transaction.success or transaction.failed for those two statuses; an
     * unknown id changes nothing.
     */
    method UpdateTransactionStatus(transactionId: int, status: Status) returns (r: Result<Transaction, RegisterError>)
      requires Valid()
      modifies this, producer
      ensures Valid()
      ensures FindById(old(records), transactionId).Err? ==>
        && r == Err(TransactionNotFound(transactionId))
        && records == old(records)
        && producer.published == old(producer.published)
      ensures FindById(old(records), transactionId).Ok? ==>
        && r == Ok(FindById(old(records), transactionId).value.(status := status))
        && records == old(records)[transactionId - 1 := r.value]
        && producer.published == old(producer.published) + StatusMessages(r.value)
    {
      var found := FindById(records, transactionId);
      if found.Err? {
        return Err(TransactionNotFound(transactionId));
      }
      var updated := found.value.(status := status);
      records := records[transactionId - 1 := updated];
      var event := ToEvent(updated);
      if status == Success {
        producer.Publish(TransactionMessage(TransactionSuccess, event));
      } else if status == Failed {
        producer.Publish(TransactionMessage(TransactionFailed, event));
      }
      r := Ok(updated);
    }
  }
}
