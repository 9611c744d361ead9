/**
 * The notification dispatcher (notification-service): every notification it
 * creates is stored, already marked as sent; email and SMS delivery are only
 * logged by the source and are not modelled.
 */
module Notify {
  import opened Money
  import opened Seqs

  const SuccessType: string := "SUCCESS"
  const FraudAlertType: string := "FRAUD_ALERT"

  /** A notifications document (its generated id left out); `timestamp` is its creation time. */
  datatype Notification = Notification(
    transactionId: int,
    kind: string,
    message: string,
    recipient: string,
    amount: int,
    fromAccount: string,
    toAccount: string,
    timestamp: int,
    sent: bool)

  // ---------------------------------------------------------------------------
  // Message texts

  function SenderMessage(amount: int, toAccount: string): string
  {
    "Payment of ₹" + FormatAmount(amount) + " sent successfully to " + toAccount
  }

  function ReceiverMessage(amount: int, fromAccount: string): string
  {
    "You received ₹" + FormatAmount(amount) + " from " + fromAccount
  }

  const AlertPrefix: string := "⚠️ FRAUD ALERT: Suspicious transaction of ₹"

  function AlertMessage(amount: int, riskScore: int, reason: string): string
  {
    AlertPrefix + FormatAmount(amount) + " detected. Risk Score: "
      + IntToString(riskScore) + ". Reason: " + reason
  }

  lemma DropPrefix(p: string, a: string, b: string)
    requires p + a == p + b
    ensures a == b
  {
    assert a == (p + a)[|p|..];
    assert b == (p + b)[|p|..];
  }

  /** Where the shorter of two matching prefixes ends, the longer one holds the separator. */
  lemma SeparatorInLonger(c: char, x: string, y: string, x': string, y': string)
    requires x + [c] + y == x' + [c] + y'
    ensures |x| < |x'| ==> x'[|x|] == c
  {
    if |x| < |x'| {
      assert (x + [c] + y)[|x|] == c;
    }
  }

  /** A text that does not contain `c` ends at the first `c` that follows it. */
  lemma CutAt(c: char, x: string, y: string, x': string, y': string)
    requires c !in x && c !in x'
    requires x + [c] + y == x' + [c] + y'
    ensures x == x' && y == y'
  {
    SeparatorInLonger(c, x, y, x', y');
    SeparatorInLonger(c, x', y', x, y);
    var s := x + [c] + y;
    assert x == s[..|x|];
    assert x' == (x' + [c] + y')[..|x'|];
    assert y == s[|x| + 1..];
    assert y' == (x' + [c] + y')[|x'| + 1..];
  }

  /** A rendered amount followed by a space can be told apart from what follows it. */
  lemma AmountThenTextDetermines(a1: int, rest1: string, a2: int, rest2: string)
    requires FormatAmount(a1) + [' '] + rest1 == FormatAmount(a2) + [' '] + rest2
    ensures a1 == a2 && rest1 == rest2
  {
    CutAt(' ', FormatAmount(a1), rest1, FormatAmount(a2), rest2);
    FormatAmountInjective(a1, a2);
  }

  lemma SenderMessageShape(a: int, to: string)
    ensures SenderMessage(a, to) == "Payment of ₹" + (FormatAmount(a) + [' '] + ("sent successfully to " + to))
  {
    assert " sent successfully to " == [' '] + "sent successfully to ";
  }

  /** The sender's message names the amount and the payee unambiguously. */
  lemma SenderMessageDetermines(a1: int, to1: string, a2: int, to2: string)
    requires SenderMessage(a1, to1) == SenderMessage(a2, to2)
    ensures a1 == a2 && to1 == to2
  {
    var rest := "sent successfully to ";
    SenderMessageShape(a1, to1);
    SenderMessageShape(a2, to2);
    DropPrefix("Payment of ₹", FormatAmount(a1) + [' '] + (rest + to1), FormatAmount(a2) + [' '] + (rest + to2));
    AmountThenTextDetermines(a1, rest + to1, a2, rest + to2);
    DropPrefix(rest, to1, to2);
  }

  lemma ReceiverMessageShape(a: int, from: string)
    ensures ReceiverMessage(a, from) == "You received ₹" + (FormatAmount(a) + [' '] + ("from " + from))
  {
    assert " from " == [' '] + "from ";
  }

  /** The receiver's message names the amount and the payer unambiguously. */
  lemma ReceiverMessageDetermines(a1: int, from1: string, a2: int, from2: string)
    requires ReceiverMessage(a1, from1) == ReceiverMessage(a2, from2)
    ensures a1 == a2 && from1 == from2
  {
    var rest := "from ";
    ReceiverMessageShape(a1, from1);
    ReceiverMessageShape(a2, from2);
    DropPrefix("You received ₹", FormatAmount(a1) + [' '] + (rest + from1), FormatAmount(a2) + [' '] + (rest + from2));
    AmountThenTextDetermines(a1, rest + from1, a2, rest + from2);
    DropPrefix(rest, from1, from2);
  }

  lemma ScoreAndReasonDetermine(score1: int, reason1: string, score2: int, reason2: string)
    requires IntToString(score1) + ". Reason: " + reason1 == IntToString(score2) + ". Reason: " + reason2
    ensures score1 == score2 && reason1 == reason2
  {
    var tail := " Reason: ";
    assert ". Reason: " == ['.'] + tail;
    assert IntToString(score1) + ". Reason: " + reason1 == IntToString(score1) + ['.'] + (tail + reason1);
    assert IntToString(score2) + ". Reason: " + reason2 == IntToString(score2) + ['.'] + (tail + reason2);
    assert '.' !in IntToString(score1) && '.' !in IntToString(score2);
    CutAt('.', IntToString(score1), tail + reason1, IntToString(score2), tail + reason2);
    IntToStringInjective(score1, score2);
    DropPrefix(tail, reason1, reason2);
  }

  lemma AlertMessageShape(a: int, score: int, reason: string)
    ensures AlertMessage(a, score, reason)
      == AlertPrefix
         + (FormatAmount(a) + [' '] + (" detected. Risk Score: "[1..] + (IntToString(score) + ". Reason: " + reason)))
  {
    var m := " detected. Risk Score: ";
    assert m == [' '] + m[1..];
    Regroup(AlertPrefix, FormatAmount(a), m, IntToString(score), ". Reason: ", reason);
  }

  lemma Regroup(p: string, a: string, m: string, n: string, r: string, x: string)
    requires m != []
    ensures p + a + m + n + r + x == p + (a + [m[0]] + (m[1..] + (n + r + x)))
  {
    assert m == [m[0]] + m[1..];
  }

  /** The alert's message carries the amount, the risk score and the reason unambiguously. */
  lemma AlertMessageDetermines(a1: int, score1: int, reason1: string, a2: int, score2: int, reason2: string)
    requires AlertMessage(a1, score1, reason1) == AlertMessage(a2, score2, reason2)
    ensures a1 == a2 && score1 == score2 && reason1 == reason2
  {
    var mid := " detected. Risk Score: "[1..];
    var t1 := IntToString(score1) + ". Reason: " + reason1;
    var t2 := IntToString(score2) + ". Reason: " + reason2;
    AlertMessageShape(a1, score1, reason1);
    AlertMessageShape(a2, score2, reason2);
    DropPrefix(AlertPrefix, FormatAmount(a1) + [' '] + (mid + t1), FormatAmount(a2) + [' '] + (mid + t2));
    AmountThenTextDetermines(a1, mid + t1, a2, mid + t2);
    DropPrefix(mid, t1, t2);
    ScoreAndReasonDetermine(score1, reason1, score2, reason2);
  }

  // ---------------------------------------------------------------------------
  // The records created

  /** The record for the payer, then the record for the payee. */
  function SuccessNotifications(transactionId: int, fromAccount: string, toAccount: string, amount: int, now: int): seq<Notification>
  {
    [ Notification(transactionId, SuccessType, SenderMessage(amount, toAccount), fromAccount, amount, fromAccount, toAccount, now, true),
      Notification(transactionId, SuccessType, ReceiverMessage(amount, fromAccount), toAccount, amount, fromAccount, toAccount, now, true) ]
  }

  function FraudAlertNotification(transactionId: int, fromAccount: string, toAccount: string, amount: int,
                                  riskScore: int, reason: string, now: int): Notification
  {
    Notification(transactionId, FraudAlertType, AlertMessage(amount, riskScore, reason), fromAccount, amount,
                 fromAccount, toAccount, now, true)
  }

  /**
   * A success notifies both parties, payer first: the two records share the
   * transaction and its details, are marked sent, and each one's message names
   * the other party and the amount; it is never mistaken for an alert.
   */
  lemma SuccessNotificationsFacts(id: int, from: string, to: string, amount: int, now: int)
    ensures var ns := SuccessNotifications(id, from, to, amount, now);
      && |ns| == 2
      && ns[0].recipient == from && ns[1].recipient == to
      && forall n :: n in ns ==>
           && n.kind == SuccessType && n.sent
           && n.transactionId == id && n.fromAccount == from && n.toAccount == to && n.amount == amount
  {
  }

  // ---------------------------------------------------------------------------
  // Queries

  /** The condition findByRecipient selects on. */
  function AddressedTo(recipient: string): Notification -> bool
  {
    (n: Notification) => n.recipient == recipient
  }

  /** The condition findByTransactionId selects on. */
  function About(transactionId: int): Notification -> bool
  {
    (n: Notification) => n.transactionId == transactionId
  }

  /** findByRecipient: every stored notification addressed to the recipient, once per record; the model lists them in insertion order. */
  function ByRecipient(ns: seq<Notification>, recipient: string): (r: seq<Notification>)
    ensures forall n :: n in r <==> n in ns && n.recipient == recipient
    ensures forall n {:trigger multiset(r)[n]} :: multiset(r)[n] == if n.recipient == recipient then multiset(ns)[n] else 0
  {
    Filter(ns, AddressedTo(recipient))
  }

  /** findByTransactionId: every stored notification about the transaction, once per record; the model lists them in insertion order. */
  function ByTransaction(ns: seq<Notification>, transactionId: int): (r: seq<Notification>)
    ensures forall n :: n in r <==> n in ns && n.transactionId == transactionId
    ensures forall n {:trigger multiset(r)[n]} :: multiset(r)[n] == if n.transactionId == transactionId then multiset(ns)[n] else 0
  {
    Filter(ns, About(transactionId))
  }

  /**
   * After a success, the payer's inbox gains exactly the payer's record and the
   * payee's inbox exactly the payee's record (both, in order, for a transfer to
   * oneself).
   */
  lemma SuccessReachesBothParties(ns: seq<Notification>, id: int, from: string, to: string, amount: int, now: int)
    ensures var added := SuccessNotifications(id, from, to, amount, now);
      && (from != to ==> ByRecipient(ns + added, from) == ByRecipient(ns, from) + [added[0]])
      && (from != to ==> ByRecipient(ns + added, to) == ByRecipient(ns, to) + [added[1]])
      && (from == to ==> ByRecipient(ns + added, from) == ByRecipient(ns, from) + added)
  {
    var added := SuccessNotifications(id, from, to, amount, now);
    var a, b := added[0], added[1];
    assert added == [a, b];
    assert a.recipient == from && b.recipient == to;
    FilterAppendPair(ns, a, b, AddressedTo(from));
    FilterAppendPair(ns, a, b, AddressedTo(to));
  }

  /** Both records of a success are listed under its transaction; in the model's insertion order, after the earlier ones. */
  lemma SuccessListedUnderTransaction(ns: seq<Notification>, id: int, from: string, to: string, amount: int, now: int)
    ensures var added := SuccessNotifications(id, from, to, amount, now);
      ByTransaction(ns + added, id) == ByTransaction(ns, id) + added
  {
    var added := SuccessNotifications(id, from, to, amount, now);
    var a, b := added[0], added[1];
    assert added == [a, b];
    assert a.transactionId == id && b.transactionId == id;
    FilterAppendPair(ns, a, b, About(id));
  }

  /** An alert reaches only the payer's inbox. */
  lemma AlertReachesPayerOnly(ns: seq<Notification>, id: int, from: string, to: string, amount: int,
                              riskScore: int, reason: string, now: int, other: string)
    ensures var alert := FraudAlertNotification(id, from, to, amount, riskScore, reason, now);
      && ByRecipient(ns + [alert], from) == ByRecipient(ns, from) + [alert]
      && (other != from ==> ByRecipient(ns + [alert], other) == ByRecipient(ns, other))
  {
    var alert := FraudAlertNotification(id, from, to, amount, riskScore, reason, now);
    FilterAppend(ns, [alert], AddressedTo(from));
    FilterAppend(ns, [alert], AddressedTo(other));
    FilterSingleton(alert, AddressedTo(from));
    FilterSingleton(alert, AddressedTo(other));
  }

  // ---------------------------------------------------------------------------
  // The service

  class NotificationService {
    /** The notifications collection, in insertion order. */
    var notifications: seq<Notification>

    constructor ()
      ensures notifications == []
    {
      notifications := [];
    }

    /** sendTransactionSuccessNotification: saves the payer's record, then the payee's. */
    method SendTransactionSuccessNotification(transactionId: int, fromAccount: string, toAccount: string, amount: int, now: int)
      modifies this
      ensures notifications == old(notifications) + SuccessNotifications(transactionId, fromAccount, toAccount, amount, now)
    {
      var sender := Notification(transactionId, SuccessType, SenderMessage(amount, toAccount), fromAccount,
                                 amount, fromAccount, toAccount, now, true);
      notifications := notifications + [sender];
      var receiver := Notification(transactionId, SuccessType, ReceiverMessage(amount, fromAccount), toAccount,
                                   amount, fromAccount, toAccount, now, true);
      notifications := notifications + [receiver];
    }

    /** sendFraudAlert: saves one record addressed to the payer. */
    method SendFraudAlert(transactionId: int, fromAccount: string, toAccount: string, amount: int,
                          riskScore: int, reason: string, now: int)
      modifies this
      ensures notifications == old(notifications) + [FraudAlertNotification(transactionId, fromAccount, toAccount, amount, riskScore, reason, now)]
    {
      var alert := Notification(transactionId, FraudAlertType, AlertMessage(amount, riskScore, reason), fromAccount,
                                amount, fromAccount, toAccount, now, true);
      notifications := notifications + [alert];
    }

    /** getNotificationsByRecipient. */
    function GetNotificationsByRecipient(recipient: string): (r: seq<Notification>)
      reads this
      ensures forall n :: n in r <==> n in notifications && n.recipient == recipient
      ensures forall n {:trigger multiset(r)[n]} :: multiset(r)[n] == if n.recipient == recipient then multiset(notifications)[n] else 0
    {
      ByRecipient(notifications, recipient)
    }

    /** getNotificationsByTransaction. */
    function GetNotificationsByTransaction(transactionId: int): (r: seq<Notification>)
      reads this
      ensures forall n :: n in r <==> n in notifications && n.transactionId == transactionId
      ensures forall n {:trigger multiset(r)[n]} :: multiset(r)[n] == if n.transactionId == transactionId then multiset(notifications)[n] else 0
    {
      ByTransaction(notifications, transactionId)
    }
  }
}
