/**
 * The wallet ledger (wallet-service): a table from account number to balance.
 *
 * Balances are BigDecimal rupees of scale 2 in the source and integer paise here.
 * `Transfer` is processTransaction as one step on the table; the class
 * `WalletService` performs it step by step on a working copy of the table and
 * commits the copy only when the transfer goes through, which is what the
 * @Transactional rollback of an unchecked exception amounts to.
 */
module Ledger {
  import opened Outcomes
  import opened Events

  /** new BigDecimal("10000.00"), in paise: the balance of a wallet that a transfer creates. */
  const OpeningBalance: int := 1_000_000
  const TransferOperation: string := "TRANSFER"
  const DefaultCurrency: string := "INR"

  /** A wallet as the repository returns it (id and timestamps left out). */
  datatype Wallet = Wallet(accountNumber: string, balance: int, currency: string, active: bool)

  datatype LedgerError =
    | WalletExists(account: string)     // IllegalArgumentException("Wallet already exists for account: ...")
    | WalletNotFound(account: string)   // IllegalArgumentException("Wallet not found: ...")
    | InsufficientBalance               // IllegalStateException("Insufficient balance")

  /** The outcome of a transfer that went through: the committed table and the event returned. */
  datatype Settled = Settled(balances: map<string, int>, event: WalletUpdateEvent)

  /** The wallet `account` has once getOrCreateWallet has run: its balance, or the opening one. */
  function StartingBalance(balances: map<string, int>, account: string): int
  {
    if account in balances then balances[account] else OpeningBalance
  }

  /**
   * getOrCreateWallet on the table: the account ends up with a wallet, a
   * missing one opened at 10000.00, and the wallets already there are kept.
   */
  function Opened(balances: map<string, int>, account: string): (r: map<string, int>)
    ensures r.Keys == balances.Keys + {account}
    ensures forall a :: a in balances ==> r[a] == balances[a]
    ensures account !in balances ==> r[account] == OpeningBalance
  {
    if account in balances then balances else balances[account := OpeningBalance]
  }

  /** createWallet on the table: refused when the account already has a wallet. */
  function Create(balances: map<string, int>, account: string, initialBalance: Option<int>): Result<map<string, int>, LedgerError>
  {
    if account in balances then Err(WalletExists(account))
    else Ok(balances[account := initialBalance.GetOr(0)])
  }

  /** getWalletByAccountNumber on the table. */
  function Lookup(balances: map<string, int>, account: string): Result<Wallet, LedgerError>
  {
    if account in balances then Ok(Wallet(account, balances[account], DefaultCurrency, true))
    else Err(WalletNotFound(account))
  }

  /**
   * processTransaction on the table: open both wallets, refuse when the source
   * holds less than the amount, otherwise debit the source and then credit the
   * destination.  The event reports the source wallet as it is after both steps.
   */
  function Transfer(balances: map<string, int>, transactionId: int, fromAccount: string,
                    toAccount: string, amount: int, now: int): (t: Result<Settled, LedgerError>)
    ensures t.Err? ==> t.error == InsufficientBalance
    ensures t.Ok? ==> t.value.balances.Keys == balances.Keys + {fromAccount, toAccount}
    ensures t.Ok? ==>
      && t.value.event.accountNumber == fromAccount && t.value.event.amount == amount
      && t.value.event.operation == TransferOperation
      && t.value.event.transactionId == transactionId && t.value.event.timestamp == now
  {
    var ready := Opened(Opened(balances, fromAccount), toAccount);
    if ready[fromAccount] < amount then
      Err(InsufficientBalance)
    else
      var debited := ready[fromAccount := ready[fromAccount] - amount];
      var credited := debited[toAccount := debited[toAccount] + amount];
      Ok(Settled(credited, WalletUpdateEvent(fromAccount, ready[fromAccount], credited[fromAccount],
                                             amount, TransferOperation, transactionId, now)))
  }

  // ---------------------------------------------------------------------------
  // What a transfer does

  /** A transfer is refused exactly when the source wallet, opened if need be, holds less than the amount. */
  lemma TransferRefusedIffShort(b: map<string, int>, id: int, from: string, to: string, amount: int, now: int)
    ensures Transfer(b, id, from, to, amount, now).Err? <==> StartingBalance(b, from) < amount
    ensures Transfer(b, id, from, to, amount, now).Err? ==> Transfer(b, id, from, to, amount, now).error == InsufficientBalance
  {
  }

  /**
   * Between two different accounts the source loses exactly the amount and the
   * destination gains it; the event names the source with its balance before and
   * after, the amount, the operation and the transaction id.
   */
  lemma TransferMovesAmount(b: map<string, int>, id: int, from: string, to: string, amount: int, now: int)
    requires from != to
    requires Transfer(b, id, from, to, amount, now).Ok?
    ensures var s := Transfer(b, id, from, to, amount, now).value;
      && s.balances[from] == StartingBalance(b, from) - amount
      && s.balances[to] == StartingBalance(b, to) + amount
      && s.balances[from] + s.balances[to] == StartingBalance(b, from) + StartingBalance(b, to)
      && s.event == WalletUpdateEvent(from, StartingBalance(b, from), StartingBalance(b, from) - amount,
                                      amount, "TRANSFER", id, now)
  {
  }

  /**
   * A transfer from an account to itself debits and credits one wallet, so it
   * changes no balance beyond opening the wallet, and the event's new balance is
   * its previous balance.
   */
  lemma TransferToSelf(b: map<string, int>, id: int, acct: string, amount: int, now: int)
    requires Transfer(b, id, acct, acct, amount, now).Ok?
    ensures var s := Transfer(b, id, acct, acct, amount, now).value;
      && s.balances == Opened(b, acct)
      && s.event.newBalance == s.event.previousBalance == StartingBalance(b, acct)
  {
    var s := Transfer(b, id, acct, acct, amount, now).value;
    assert s.balances == Opened(b, acct);
  }

  /** A transfer adds at most the two wallets it names and touches no other balance. */
  lemma TransferFrame(b: map<string, int>, id: int, from: string, to: string, amount: int, now: int)
    requires Transfer(b, id, from, to, amount, now).Ok?
    ensures var s := Transfer(b, id, from, to, amount, now).value;
      && s.balances.Keys == b.Keys + {from, to}
      && forall k :: k in b && k != from && k != to ==> s.balances[k] == b[k]
  {
  }

  // ---------------------------------------------------------------------------
  // Totals and non-negativity

  ghost function Pick(keys: set<string>): string
    requires keys != {}
  {
    var k :| k in keys; k
  }

  /** The sum of all balances. */
  ghost function Total(m: map<string, int>): int
    decreases |m|
  {
    if m == map[] then 0
    else
      var k := Pick(m.Keys);
      m[k] + Total(m - {k})
  }

  lemma {:induction false} TotalRemove(m: map<string, int>, k: string)
    requires k in m
    ensures Total(m) == m[k] + Total(m - {k})
    decreases |m|
  {
    var j := Pick(m.Keys);
    if j != k {
      TotalRemove(m - {j}, k);
      TotalRemove(m - {k}, j);
      assert m - {j} - {k} == m - {k} - {j};
    }
  }

  lemma TotalUpdate(m: map<string, int>, k: string, v: int)
    ensures Total(m[k := v]) == Total(m) - (if k in m then m[k] else 0) + v
  {
    var m' := m[k := v];
    TotalRemove(m', k);
    assert m' - {k} == m - {k};
    if k in m {
      TotalRemove(m, k);
    } else {
      assert m - {k} == m;
    }
  }

  lemma OpenedTotal(b: map<string, int>, account: string)
    ensures Total(Opened(b, account)) == Total(b) + (if account in b then 0 else OpeningBalance)
  {
    if account !in b {
      TotalUpdate(b, account, OpeningBalance);
    }
  }

  /** Debiting one wallet and crediting another by the same amount leaves the sum unchanged. */
  lemma DebitCreditTotal(m: map<string, int>, from: string, to: string, amount: int)
    requires from in m && to in m
    ensures var debited := m[from := m[from] - amount];
      Total(debited[to := debited[to] + amount]) == Total(m)
  {
    var debited := m[from := m[from] - amount];
    TotalUpdate(m, from, m[from] - amount);
    TotalUpdate(debited, to, debited[to] + amount);
  }

  /** How many of the two named wallets a transfer has to open. */
  function Missing(b: map<string, int>, from: string, to: string): (n: nat)
    ensures n == |{from, to} - b.Keys|
  {
    if from in b && to in b then
      assert {from, to} - b.Keys == {};
      0
    else if from in b then
      assert {from, to} - b.Keys == {to};
      1
    else if to in b || to == from then
      assert {from, to} - b.Keys == {from};
      1
    else
      assert {from, to} - b.Keys == {from, to};
      2
  }

  lemma TransferTotalFromOpened(b: map<string, int>, id: int, from: string, to: string, amount: int, now: int)
    requires Transfer(b, id, from, to, amount, now).Ok?
    ensures Total(Transfer(b, id, from, to, amount, now).value.balances) == Total(Opened(Opened(b, from), to))
  {
    DebitCreditTotal(Opened(Opened(b, from), to), from, to, amount);
  }

  /**
   * Money is conserved: a transfer leaves the sum of all balances as it was,
   * except for 10000.00 added for every wallet it had to open.
   */
  lemma TransferConservesTotal(b: map<string, int>, id: int, from: string, to: string, amount: int, now: int)
    requires Transfer(b, id, from, to, amount, now).Ok?
    ensures Total(Transfer(b, id, from, to, amount, now).value.balances)
            == Total(b) + OpeningBalance * |{from, to} - b.Keys|
  {
    TransferTotalFromOpened(b, id, from, to, amount, now);
    OpenedTotal(b, from);
    OpenedTotal(Opened(b, from), to);
    var n := Missing(b, from, to);
  }

  ghost predicate NonNegative(m: map<string, int>)
  {
    forall k :: k in m ==> m[k] >= 0
  }

  /** With no negative balance and a non-negative amount, no transfer makes a balance negative. */
  lemma TransferKeepsNonNegative(b: map<string, int>, id: int, from: string, to: string, amount: int, now: int)
    requires NonNegative(b) && amount >= 0
    requires Transfer(b, id, from, to, amount, now).Ok?
    ensures NonNegative(Transfer(b, id, from, to, amount, now).value.balances)
  {
  }

  /**
   * The ledger keeps no record of the transaction ids it has applied: handing it
   * the same transfer twice debits the source and credits the destination twice.
   */
  lemma RedeliveryAppliesTwice(b: map<string, int>, id: int, from: string, to: string, amount: int, now: int, later: int)
    requires from != to
    requires Transfer(b, id, from, to, amount, now).Ok?
    requires Transfer(Transfer(b, id, from, to, amount, now).value.balances, id, from, to, amount, later).Ok?
    ensures var again := Transfer(Transfer(b, id, from, to, amount, now).value.balances, id, from, to, amount, later).value;
      && again.balances[from] == StartingBalance(b, from) - 2 * amount
      && again.balances[to] == StartingBalance(b, to) + 2 * amount
  {
    var s := Transfer(b, id, from, to, amount, now).value;
    TransferMovesAmount(b, id, from, to, amount, now);
    TransferMovesAmount(s.balances, id, from, to, amount, later);
  }

  /** A wallet created explicitly is found afterwards with the given balance, or zero when none was given. */
  lemma CreateThenLookup(b: map<string, int>, account: string, initialBalance: Option<int>)
    ensures Create(b, account, initialBalance).Err? <==> account in b
    ensures Create(b, account, initialBalance).Ok? ==>
      && Lookup(Create(b, account, initialBalance).value, account)
         == Ok(Wallet(account, initialBalance.GetOr(0), DefaultCurrency, true))
      && forall k :: k in b ==> Lookup(Create(b, account, initialBalance).value, k) == Lookup(b, k)
  {
  }

  /** createWallet accepts any initial balance, so it keeps balances non-negative only when that balance is. */
  lemma CreateKeepsNonNegative(b: map<string, int>, account: string, initialBalance: Option<int>)
    requires NonNegative(b) && account !in b
    ensures NonNegative(Create(b, account, initialBalance).value) <==> initialBalance.GetOr(0) >= 0
  {
    var c := Create(b, account, initialBalance).value;
    assert c[account] == initialBalance.GetOr(0);
  }

  // ---------------------------------------------------------------------------
  // The service

  class WalletService {
    /** account number -> balance in paise; one entry per wallet in the repository. */
    var balances: map<string, int>

    constructor ()
      ensures balances == map[]
    {
      balances := map[];
    }

    /** createWallet: refuses an account that has a wallet, else stores the initial balance (zero when null). */
    method CreateWallet(accountNumber: string, initialBalance: Option<int>) returns (r: Result<Wallet, LedgerError>)
      modifies this
      ensures accountNumber in old(balances) ==> r == Err(WalletExists(accountNumber)) && balances == old(balances)
      ensures accountNumber !in old(balances) ==>
        && balances == old(balances)[accountNumber := initialBalance.GetOr(0)]
        && r == Ok(Wallet(accountNumber, initialBalance.GetOr(0), DefaultCurrency, true))
    {
      if accountNumber in balances {
        return Err(WalletExists(accountNumber));
      }
      var balance := if initialBalance.Some? then initialBalance.value else 0;
      balances := balances[accountNumber := balance];
      r := Ok(Wallet(accountNumber, balance, DefaultCurrency, true));
    }

    /** getWalletByAccountNumber. */
    function GetWalletByAccountNumber(accountNumber: string): (r: Result<Wallet, LedgerError>)
      reads this
      ensures r.Ok? <==> accountNumber in balances
      ensures r.Ok? ==> r.value.accountNumber == accountNumber && r.value.balance == balances[accountNumber]
      ensures r.Err? ==> r.error == WalletNotFound(accountNumber)
    {
      Lookup(balances, accountNumber)
    }

    /**
     * processTransaction.  `table` plays the persistence context of the
     * surrounding database transaction: lazily created wallets and both balance
     * updates go to it, and it becomes the committed table only on success.
     */
    method ProcessTransaction(transactionId: int, fromAccount: string, toAccount: string, amount: int, now: int)
      returns (r: Result<WalletUpdateEvent, LedgerError>)
      modifies this
      ensures Transfer(old(balances), transactionId, fromAccount, toAccount, amount, now).Ok? ==>
        && r == Ok(Transfer(old(balances), transactionId, fromAccount, toAccount, amount, now).value.event)
        && balances == Transfer(old(balances), transactionId, fromAccount, toAccount, amount, now).value.balances
      ensures Transfer(old(balances), transactionId, fromAccount, toAccount, amount, now).Err? ==>
        && r == Err(InsufficientBalance)
        && balances == old(balances)
    {
      var table := balances;
      if fromAccount !in table {
        table := table[fromAccount := OpeningBalance];
      }
      if toAccount !in table {
        table := table[toAccount := OpeningBalance];
      }
      if table[fromAccount] < amount {
        // IllegalStateException: the transaction rolls back, nothing is committed.
        return Err(InsufficientBalance);
      }
      var oldFromBalance := table[fromAccount];
      table := table[fromAccount := table[fromAccount] - amount];
      table := table[toAccount := table[toAccount] + amount];
      balances := table;
      r := Ok(WalletUpdateEvent(fromAccount, oldFromBalance, table[fromAccount], amount,
                                TransferOperation, transactionId, now));
    }
  }
}
